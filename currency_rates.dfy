/** The currency rates hook: the code-to-rate map and the two conversions through USD. */
module CurrencyRates {
  import opened Common

  datatype CurrencyRate = CurrencyRate(currencyCode: string, rateToUsd: real)

  /** The map the forEach builds: the rows in order, a later row overwriting an earlier one. */
  function RatesOf(rows: seq<CurrencyRate>): map<string, real>
  {
    if rows == [] then map[]
    else RatesOf(rows[..|rows| - 1])[rows[|rows| - 1].currencyCode := rows[|rows| - 1].rateToUsd]
  }

  function Codes(rows: seq<CurrencyRate>): set<string>
  {
    set i | 0 <= i < |rows| :: rows[i].currencyCode
  }

  /** One entry per code, and the entry is the rate of the last row with that code. */
  lemma {:induction false} LastRowWins(rows: seq<CurrencyRate>)
    ensures RatesOf(rows).Keys == Codes(rows)
    ensures forall i :: 0 <= i < |rows| && (forall j :: i < j < |rows| ==> rows[j].currencyCode != rows[i].currencyCode) ==>
              RatesOf(rows)[rows[i].currencyCode] == rows[i].rateToUsd
  {
    if rows != [] {
      var init := rows[..|rows| - 1];
      LastRowWins(init);
      assert Codes(rows) == Codes(init) + {rows[|rows| - 1].currencyCode} by {
        forall c | c in Codes(rows) ensures c in Codes(init) + {rows[|rows| - 1].currencyCode} {
          var i :| 0 <= i < |rows| && rows[i].currencyCode == c;
          if i < |rows| - 1 {
            assert init[i] == rows[i];
          }
        }
        forall c | c in Codes(init) ensures c in Codes(rows) {
          var i :| 0 <= i < |init| && init[i].currencyCode == c;
          assert rows[i] == init[i];
        }
      }
      forall i | 0 <= i < |rows| && (forall j :: i < j < |rows| ==> rows[j].currencyCode != rows[i].currencyCode)
        ensures RatesOf(rows)[rows[i].currencyCode] == rows[i].rateToUsd
      {
        if i < |rows| - 1 {
          assert init[i] == rows[i];
          assert forall j :: i < j < |init| ==> init[j] == rows[j];
        }
      }
    }
  }

  /** fetchRates: the forEach over the fetched rows; no data leaves the map empty. */
  method FetchRates(data: Option<seq<CurrencyRate>>) returns (rates: map<string, real>)
    ensures data.None? ==> rates == map[]
    ensures data.Some? ==> rates == RatesOf(data.value) && rates.Keys == Codes(data.value)
  {
    rates := map[];
    if data.None? {
      return;
    }
    var rows := data.value;
    var ratesMap: map<string, real> := map[];
    var i := 0;
    while i < |rows|
      invariant 0 <= i <= |rows|
      invariant ratesMap == RatesOf(rows[..i])
    {
      ratesMap := ratesMap[rows[i].currencyCode := rows[i].rateToUsd];
      assert rows[..i + 1][..i] == rows[..i];
      i := i + 1;
    }
    assert rows[..i] == rows;
    LastRowWins(rows);
    rates := ratesMap;
  }

  /** `!rates[code]`: the code has no rate, or its rate is 0. */
  predicate NoRate(rates: map<string, real>, code: string)
  {
    code !in rates || rates[code] == 0.0
  }

  /** convertFromUSD */
  function ConvertFromUSD(rates: map<string, real>, amountUSD: real, toCurrency: string): (r: real)
    ensures NoRate(rates, toCurrency) ==> r == amountUSD
    ensures !NoRate(rates, toCurrency) ==> r == amountUSD / rates[toCurrency]
  {
    if NoRate(rates, toCurrency) then amountUSD else amountUSD / rates[toCurrency]
  }

  /** convertToUSD */
  function ConvertToUSD(rates: map<string, real>, amount: real, fromCurrency: string): (r: real)
    ensures NoRate(rates, fromCurrency) ==> r == amount
    ensures !NoRate(rates, fromCurrency) ==> r == amount * rates[fromCurrency]
  {
    if NoRate(rates, fromCurrency) then amount else amount * rates[fromCurrency]
  }

  /** Over exact arithmetic the two conversions undo each other, for every code. */
  lemma RoundTrips(rates: map<string, real>, amount: real, code: string)
    ensures ConvertToUSD(rates, ConvertFromUSD(rates, amount, code), code) == amount
    ensures ConvertFromUSD(rates, ConvertToUSD(rates, amount, code), code) == amount
  {
  }

  /** convertFromUSD sends 0 to 0 and is additive in the amount. */
  lemma FromUSDIsAdditive(rates: map<string, real>, a: real, b: real, code: string)
    ensures ConvertFromUSD(rates, 0.0, code) == 0.0
    ensures ConvertFromUSD(rates, a + b, code) == ConvertFromUSD(rates, a, code) + ConvertFromUSD(rates, b, code)
  {
    if !NoRate(rates, code) {
      DivisionIsAdditive(a, b, rates[code]);
    }
  }

  /** convertFromUSD commutes with scaling the amount. */
  lemma FromUSDIsHomogeneous(rates: map<string, real>, a: real, k: real, code: string)
    ensures ConvertFromUSD(rates, k * a, code) == k * ConvertFromUSD(rates, a, code)
  {
    if !NoRate(rates, code) {
      DivisionIsHomogeneous(k, a, rates[code]);
    }
  }

  /** convertToUSD sends 0 to 0 and is linear in the amount. */
  lemma ToUSDIsLinear(rates: map<string, real>, a: real, b: real, k: real, code: string)
    ensures ConvertToUSD(rates, 0.0, code) == 0.0
    ensures ConvertToUSD(rates, a + b, code) == ConvertToUSD(rates, a, code) + ConvertToUSD(rates, b, code)
    ensures ConvertToUSD(rates, k * a, code) == k * ConvertToUSD(rates, a, code)
  {
    if !NoRate(rates, code) {
      MultiplicationIsLinear(a, b, k, rates[code]);
    }
  }

  lemma DivisionIsAdditive(a: real, b: real, rate: real)
    requires rate != 0.0
    ensures (a + b) / rate == a / rate + b / rate
  {
  }

  lemma DivisionIsHomogeneous(k: real, a: real, rate: real)
    requires rate != 0.0
    ensures (k * a) / rate == k * (a / rate)
  {
  }

  lemma MultiplicationIsLinear(a: real, b: real, k: real, rate: real)
    ensures (a + b) * rate == a * rate + b * rate
    ensures (k * a) * rate == k * (a * rate)
  {
  }
}
