/** The mining simulator page: a session advances by 2 per tick and, on the tick after
    it reaches 100, stops and adds 2.5 ZC to today's total. */
module Crypto {

  const InitialDailyMined: real := 45.2
  const SessionReward: real := 2.5
  const TickProgress: nat := 2
  const FullProgress: nat := 100

  /** The interval's progress updater: at 100 or more the session is over and progress returns to 0. */
  function Step(progress: nat): (next: nat)
    ensures progress >= FullProgress ==> next == 0
    ensures progress < FullProgress ==> next == progress + TickProgress
  {
    if progress >= FullProgress then 0 else progress + TickProgress
  }

  /** The progress after n ticks of a session started at 0. */
  function ProgressAfter(n: nat): nat
  {
    if n == 0 then 0 else Step(ProgressAfter(n - 1))
  }

  lemma {:induction false} ProgressAfterClosedForm(n: nat)
    requires n <= 51
    ensures ProgressAfter(n) == if n == 51 then 0 else TickProgress * n
  {
    if n > 0 {
      ProgressAfterClosedForm(n - 1);
    }
  }

  /** Tick n (counting from 1) is the stopping tick, the first one that finds progress at 100,
      exactly when n is 51. */
  lemma StopsOnTickFiftyOne(n: nat)
    requires 1 <= n <= 51
    ensures ProgressAfter(n - 1) >= FullProgress <==> n == 51
  {
    ProgressAfterClosedForm(n - 1);
  }

  class Simulator {
    var isMining: bool
    var progress: nat
    var dailyMined: real
    var intervalActive: bool
    ghost var sessions: nat

    /** The progress is an even percentage; the interval runs exactly while mining; and
        today's total is the starting figure plus 2.5 for every finished session. */
    ghost predicate Valid()
      reads this
    {
      && progress <= FullProgress && progress % 2 == 0
      && (isMining <==> intervalActive)
      && (!isMining ==> progress == 0)
      && dailyMined == InitialDailyMined + SessionReward * sessions as real
    }

    constructor ()
      ensures Valid()
      ensures !isMining && progress == 0 && dailyMined == InitialDailyMined
    {
      isMining := false;
      progress := 0;
      dailyMined := InitialDailyMined;
      intervalActive := false;
      sessions := 0;
    }

    /** startMining; the start button is disabled while mining. */
    method StartMining()
      requires Valid() && !isMining
      modifies this
      ensures Valid()
      ensures isMining && progress == 0 && dailyMined == old(dailyMined)
    {
      isMining := true;
      progress := 0;
      intervalActive := true;
    }

    /** One interval tick. */
    method Tick()
      requires Valid()
      modifies this
      ensures Valid()
      ensures !old(intervalActive) ==> unchanged(this)
      ensures old(intervalActive) ==> progress == Step(old(progress))
      ensures old(intervalActive) && old(progress) < FullProgress ==> isMining && dailyMined == old(dailyMined)
      ensures old(intervalActive) && old(progress) >= FullProgress ==>
                !isMining && progress == 0 && dailyMined == old(dailyMined) + SessionReward
      ensures dailyMined >= old(dailyMined)
    {
      if !intervalActive {
        return;
      }
      if progress >= FullProgress {
        intervalActive := false;
        isMining := false;
        dailyMined := dailyMined + SessionReward;
        sessions := sessions + 1;
        progress := 0;
      } else {
        progress := progress + TickProgress;
      }
    }
  }

  /** Today's total never drops below its starting figure. */
  lemma DailyMinedAtLeastInitial(s: Simulator)
    requires s.Valid()
    ensures s.dailyMined >= InitialDailyMined
  {
  }
}
