/** The investment stats hook: active count, amount invested, current value and
    profit over a user's investment records. */
module InvestmentStats {
  import opened Common

  datatype InvestmentRecord = InvestmentRecord(profit: Option<real>, status: string)

  datatype Stats = Stats(totalInvested: real, currentValue: real, totalProfit: real, activeCount: nat)

  /** The investment every active record is assumed to hold. */
  const BaseInvestment: real := 100.0

  predicate IsActive(r: InvestmentRecord) { r.status == "active" }

  function Profits(data: seq<InvestmentRecord>): (r: seq<real>)
    ensures |r| == |data| && forall i :: 0 <= i < |data| ==> r[i] == OrZero(data[i].profit)
  {
    seq(|data|, i requires 0 <= i < |data| => OrZero(data[i].profit))
  }

  /** The stats computed from the fetched records. */
  function StatsOf(data: seq<InvestmentRecord>): (s: Stats)
    ensures s.activeCount == |Filter(IsActive, data)| <= |data|
    ensures s.totalInvested == BaseInvestment * s.activeCount as real
    ensures s.currentValue - s.totalInvested == s.totalProfit
    ensures s.totalProfit == Sum(Profits(data))
  {
    var active := Filter(IsActive, data);
    var totalProfit := Sum(Profits(data));
    Stats(|active| as real * BaseInvestment, |active| as real * BaseInvestment + totalProfit, totalProfit, |active|)
  }

  /** The hook's state before its effect first runs. */
  const InitialStats: Stats := Stats(0.0, 0.0, 0.0, 0)

  /** One run of fetchStats, which runs again whenever the user changes. prev is the state
      before this run (InitialStats on the first). Without a user, or when the query fails
      or returns no data (None), setStats is not called and prev is kept. */
  function FetchStats(prev: Stats, user: Option<string>, data: Option<seq<InvestmentRecord>>): (s: Stats)
    ensures user.None? || data.None? ==> s == prev
    ensures user.Some? && data.Some? ==> s == StatsOf(data.value)
  {
    if user.None? || data.None? then prev else StatsOf(data.value)
  }

  /** The profit counts every record, active or not; only active ones count as invested. */
  lemma {:induction false} InactiveRecordsCountForProfitOnly(data: seq<InvestmentRecord>, r: InvestmentRecord)
    requires !IsActive(r)
    ensures StatsOf(data + [r]).totalProfit == StatsOf(data).totalProfit + OrZero(r.profit)
    ensures StatsOf(data + [r]).activeCount == StatsOf(data).activeCount
    ensures StatsOf(data + [r]).totalInvested == StatsOf(data).totalInvested
  {
    assert Profits(data + [r]) == Profits(data) + [OrZero(r.profit)];
    SumAppend(Profits(data), [OrZero(r.profit)]);
    FilterAppend(IsActive, data, [r]);
    assert Filter(IsActive, [r]) == [] + Filter(IsActive, []);
  }

  /** An active record adds one to the count and the base amount to what is invested. */
  lemma {:induction false} ActiveRecordAddsBase(data: seq<InvestmentRecord>, r: InvestmentRecord)
    requires IsActive(r)
    ensures StatsOf(data + [r]).activeCount == StatsOf(data).activeCount + 1
    ensures StatsOf(data + [r]).totalInvested == StatsOf(data).totalInvested + BaseInvestment
    ensures StatsOf(data + [r]).currentValue == StatsOf(data).currentValue + BaseInvestment + OrZero(r.profit)
  {
    assert Profits(data + [r]) == Profits(data) + [OrZero(r.profit)];
    SumAppend(Profits(data), [OrZero(r.profit)]);
    FilterAppend(IsActive, data, [r]);
    assert Filter(IsActive, [r]) == [r] + Filter(IsActive, []);
  }
}
