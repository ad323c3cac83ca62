/** The home page figures: the balances and currency with their defaults, and the
    ZukaCoin value in USD. */
module Home {
  import opened Common

  /** What the user data hook provides; each value may be missing. */
  datatype UserData = UserData(walletBalance: Option<real>, zukaBalance: Option<real>, currencyCode: Option<string>)

  datatype Figures = Figures(walletBalance: real, zukaBalance: real, currency: string, zukaToUsd: real, totalMined: real)

  /** 1000 ZC = 1.5 USD. */
  function ZukaToUsd(zuka: real): real
  {
    (zuka / 1000.0) * 1.5
  }

  /** 1000 ZC is worth 1.5 USD as the label says; 0 is worth 0, and more ZC is worth more. */
  lemma ZukaToUsdRate(a: real, b: real)
    ensures ZukaToUsd(1000.0) == 1.5 && ZukaToUsd(0.0) == 0.0
    ensures a <= b ==> ZukaToUsd(a) <= ZukaToUsd(b)
    ensures a < b ==> ZukaToUsd(a) < ZukaToUsd(b)
  {
  }

  /** The balances default to 0 and the currency to "USD" (also when it is empty). */
  function HomeFigures(userData: Option<UserData>): (f: Figures)
    ensures userData.None? ==> f.walletBalance == 0.0 && f.zukaBalance == 0.0
    ensures userData.Some? ==> f.walletBalance == OrZero(userData.value.walletBalance)
    ensures userData.Some? ==> f.zukaBalance == OrZero(userData.value.zukaBalance)
    ensures userData.Some? && userData.value.currencyCode.Some? && userData.value.currencyCode.value != "" ==>
              f.currency == userData.value.currencyCode.value
    ensures !(userData.Some? && userData.value.currencyCode.Some? && userData.value.currencyCode.value != "") ==>
              f.currency == "USD"
    ensures f.currency != ""
    ensures f.zukaToUsd == ZukaToUsd(f.zukaBalance)
    ensures f.totalMined == f.zukaBalance
  {
    var wallet := if userData.Some? then OrZero(userData.value.walletBalance) else 0.0;
    var zuka := if userData.Some? then OrZero(userData.value.zukaBalance) else 0.0;
    var currency :=
      if userData.Some? && userData.value.currencyCode.Some? && userData.value.currencyCode.value != ""
      then userData.value.currencyCode.value else "USD";
    Figures(wallet, zuka, currency, ZukaToUsd(zuka), zuka)
  }
}
