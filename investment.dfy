/** The investment page: a fixed list of holdings, the totals over it and how a
    holding's profit is displayed. */
module Investment {
  import opened Common

  datatype Holding = Holding(
    id: nat,
    name: string,
    kind: string,
    invested: real,
    current: real,
    profit: real,
    profitPercent: real,
    status: string)

  /** The three hard-coded holdings. */
  const Investments: seq<Holding> := [
    Holding(1, "Virtual Farm Portfolio", "Virtual", 500.0, 672.0, 172.0, 34.4, "active"),
    Holding(2, "Real Estate Fund", "Real", 1000.0, 1120.0, 120.0, 12.0, "active"),
    Holding(3, "Crypto Farming Pool", "Virtual", 250.0, 285.0, 35.0, 14.0, "active")
  ]

  function InvestedAmounts(hs: seq<Holding>): (r: seq<real>)
    ensures |r| == |hs| && forall i :: 0 <= i < |hs| ==> r[i] == hs[i].invested
  {
    seq(|hs|, i requires 0 <= i < |hs| => hs[i].invested)
  }

  function CurrentAmounts(hs: seq<Holding>): (r: seq<real>)
    ensures |r| == |hs| && forall i :: 0 <= i < |hs| ==> r[i] == hs[i].current
  {
    seq(|hs|, i requires 0 <= i < |hs| => hs[i].current)
  }

  function Gains(hs: seq<Holding>): (r: seq<real>)
    ensures |r| == |hs| && forall i :: 0 <= i < |hs| ==> r[i] == hs[i].current - hs[i].invested
  {
    seq(|hs|, i requires 0 <= i < |hs| => hs[i].current - hs[i].invested)
  }

  function TotalInvested(hs: seq<Holding>): real { Sum(InvestedAmounts(hs)) }
  function TotalCurrent(hs: seq<Holding>): real { Sum(CurrentAmounts(hs)) }

  /** totalProfit = totalCurrent - totalInvested */
  function TotalProfit(hs: seq<Holding>): real { TotalCurrent(hs) - TotalInvested(hs) }

  /** The difference of the two totals is the total of the per-holding gains. */
  lemma {:induction false} TotalProfitIsSumOfGains(hs: seq<Holding>)
    ensures TotalProfit(hs) == Sum(Gains(hs))
  {
    if hs != [] {
      var init := hs[..|hs| - 1];
      TotalProfitIsSumOfGains(init);
      assert InvestedAmounts(hs)[..|hs| - 1] == InvestedAmounts(init);
      assert CurrentAmounts(hs)[..|hs| - 1] == CurrentAmounts(init);
      assert Gains(hs)[..|hs| - 1] == Gains(init);
    }
  }

  /** totalProfitPercent, defined only when something is invested. */
  function TotalProfitPercent(hs: seq<Holding>): (r: real)
    requires TotalInvested(hs) > 0.0
    ensures r * TotalInvested(hs) == TotalProfit(hs) * 100.0
    ensures TotalProfit(hs) > 0.0 <==> r > 0.0
  {
    (TotalProfit(hs) / TotalInvested(hs)) * 100.0
  }

  /** A holding's own figures agree: profit is current minus invested, and the percent is
      profit over invested. */
  predicate Consistent(h: Holding)
  {
    h.invested > 0.0 && h.profit == h.current - h.invested && h.profitPercent * h.invested == h.profit * 100.0
  }

  /** A non-empty list of holdings that each hold something has a positive total invested. */
  lemma PositiveTotalInvested(hs: seq<Holding>)
    requires hs != []
    requires forall i :: 0 <= i < |hs| ==> hs[i].invested > 0.0
    ensures TotalInvested(hs) > 0.0
  {
    SumNonNegative(InvestedAmounts(hs));
    SumBoundsTerm(InvestedAmounts(hs), 0);
  }

  /** Every hard-coded row is consistent; the page's totals are 1750 invested, 2077 current
      and 327 profit, and the percent is defined. */
  lemma HardCodedHoldings()
    ensures forall i :: 0 <= i < |Investments| ==> Consistent(Investments[i])
    ensures TotalInvested(Investments) == 1750.0
    ensures TotalCurrent(Investments) == 2077.0
    ensures TotalProfit(Investments) == 327.0
    ensures TotalInvested(Investments) > 0.0 && TotalProfitPercent(Investments) > 0.0
  {
    assert InvestedAmounts(Investments) == [500.0, 1000.0, 250.0];
    assert CurrentAmounts(Investments) == [672.0, 1120.0, 285.0];
    assert [500.0, 1000.0, 250.0][..2] == [500.0, 1000.0];
    assert [672.0, 1120.0, 285.0][..2] == [672.0, 1120.0];
    assert [500.0, 1000.0][..1] == [500.0];
    assert [672.0, 1120.0][..1] == [672.0];
    assert [500.0][..0] == [];
    assert [672.0][..0] == [];
  }

  /** How a profit is shown: the trend icon and the sign in front of the amount. */
  datatype ProfitDisplay = ProfitDisplay(trendingUp: bool, sign: string)

  function ShowProfit(profit: real): (d: ProfitDisplay)
    ensures d.trendingUp <==> profit > 0.0
    ensures d.sign == "+" <==> d.trendingUp
    ensures d.sign == "+" || d.sign == ""
  {
    if profit > 0.0 then ProfitDisplay(true, "+") else ProfitDisplay(false, "")
  }

  /** Virtual holdings get the secondary badge, all others the outline one. */
  function KindBadge(kind: string): (v: BadgeVariant)
    ensures v == Secondary <==> kind == "Virtual"
    ensures v == Outline <==> kind != "Virtual"
  {
    if kind == "Virtual" then Secondary else Outline
  }
}
