/** The mining hook: a session started by the user advances by ticks of an interval
    timer and ends with a mining record of a random amount. */
module Mining {

  const TickProgress: nat := 10
  const FullProgress: nat := 100

  /** The interval's progress updater. */
  function Step(progress: nat): (next: nat)
    ensures next <= FullProgress || next == progress + TickProgress
    ensures progress < FullProgress ==> next <= FullProgress
    ensures next >= FullProgress <==> progress + TickProgress >= FullProgress
    ensures progress + TickProgress < FullProgress ==> next == progress + TickProgress
  {
    if progress + TickProgress >= FullProgress then FullProgress else progress + TickProgress
  }

  /** The progress after n ticks of a session started at 0. */
  function ProgressAfter(n: nat): nat
  {
    if n == 0 then 0 else Step(ProgressAfter(n - 1))
  }

  lemma {:induction false} ProgressAfterClosedForm(n: nat)
    ensures ProgressAfter(n) == if n >= 10 then FullProgress else TickProgress * n
  {
    if n > 0 {
      ProgressAfterClosedForm(n - 1);
    }
  }

  /** Tick n (counting from 1) is the one that finishes the session exactly when n is 10:
      before it the progress has not reached 100, and it brings the progress to 100. */
  lemma CompletesOnTenthTick(n: nat)
    requires n >= 1
    ensures (ProgressAfter(n - 1) < FullProgress && ProgressAfter(n) >= FullProgress) <==> n == 10
  {
    ProgressAfterClosedForm(n - 1);
    ProgressAfterClosedForm(n);
  }

  /** `Math.random() * 10 + 5`, for a random value in [0, 1). */
  function MinedAmount(random: real): (amount: real)
    requires 0.0 <= random < 1.0
    ensures 5.0 <= amount < 15.0
  {
    random * 10.0 + 5.0
  }

  /** The hook's state. hasUser says whether someone is signed in; the interval and the
      completion that its last tick starts are explicit. */
  class MiningSession {
    const hasUser: bool
    var isMining: bool
    var progress: nat
    var intervalActive: bool
    var completionPending: bool
    /** The mined amounts inserted into mining_records. */
    var records: seq<real>
    ghost var ticks: nat

    ghost predicate Valid()
      reads this
    {
      && progress <= FullProgress
      && (isMining ==> hasUser)
      && (intervalActive ==> isMining && !completionPending && ticks < 10 && progress == ProgressAfter(ticks))
      && (completionPending ==> isMining && !intervalActive && ticks == 10 && progress == FullProgress)
      && (isMining ==> intervalActive || completionPending)
      && (!isMining ==> progress == 0 && !intervalActive && !completionPending)
      && (forall i :: 0 <= i < |records| ==> 5.0 <= records[i] < 15.0)
    }

    constructor (hasUser: bool)
      ensures Valid()
      ensures this.hasUser == hasUser && !isMining && progress == 0 && records == []
    {
      this.hasUser := hasUser;
      isMining := false;
      progress := 0;
      intervalActive := false;
      completionPending := false;
      records := [];
      ticks := 0;
    }

    /** startMining: nothing happens without a user or while a session runs. */
    method StartMining()
      requires Valid()
      modifies this
      ensures Valid()
      ensures old(!hasUser || isMining) ==> unchanged(this)
      ensures old(hasUser && !isMining) ==> isMining && intervalActive && progress == 0 && records == old(records)
    {
      if !hasUser || isMining {
        return;
      }
      isMining := true;
      progress := 0;
      intervalActive := true;
      ticks := 0;
    }

    /** One interval tick: +10, and at 100 the interval stops and the completion begins. */
    method Tick()
      requires Valid()
      modifies this
      ensures Valid()
      ensures !old(intervalActive) ==> unchanged(this)
      ensures old(intervalActive) ==> progress == Step(old(progress)) && isMining && records == old(records)
      ensures old(intervalActive) ==> (completionPending <==> progress == FullProgress)
    {
      if !intervalActive {
        return;
      }
      ProgressAfterClosedForm(ticks);
      ProgressAfterClosedForm(ticks + 1);
      ticks := ticks + 1;
      var newProgress := progress + TickProgress;
      if newProgress >= FullProgress {
        intervalActive := false;
        completionPending := true;
        progress := FullProgress;
      } else {
        progress := newProgress;
      }
    }

    /** completeMining: inserts the random amount; on success and on failure alike the
        session ends with isMining false and progress 0. */
    method CompleteMining(random: real, insertOk: bool) returns (minedAmount: real)
      requires Valid() && completionPending
      requires 0.0 <= random < 1.0
      modifies this
      ensures Valid()
      ensures minedAmount == MinedAmount(random) && 5.0 <= minedAmount < 15.0
      ensures !isMining && progress == 0 && !completionPending
      ensures records == if insertOk then old(records) + [minedAmount] else old(records)
    {
      minedAmount := MinedAmount(random);
      if insertOk {
        records := records + [minedAmount];
      }
      isMining := false;
      progress := 0;
      completionPending := false;
    }
  }
}
