/** The social points hook: every engagement earns points, summed over all of
    a user's engagements and over those made today. */
module SocialStats {
  import opened Common

  /** A UTC instant: the `YYYY-MM-DD` prefix of its ISO form and the seconds into that day. */
  datatype Timestamp = Timestamp(date: string, seconds: real)

  datatype Engagement = Engagement(engagementType: string, createdAt: Timestamp)

  datatype Stats = Stats(totalPoints: nat, todayPoints: nat)

  const SharePoints: nat := 100
  const OtherPoints: nat := 20

  /** A share earns 100 points, any other engagement 20. */
  function Points(e: Engagement): (p: nat)
    ensures p == SharePoints <==> e.engagementType == "share"
    ensures p == OtherPoints <==> e.engagementType != "share"
  {
    if e.engagementType == "share" then SharePoints else OtherPoints
  }

  /** The points of all engagements. */
  function TotalPoints(es: seq<Engagement>): nat
  {
    if es == [] then 0 else TotalPoints(es[..|es| - 1]) + Points(es[|es| - 1])
  }

  /** The points of the engagements whose UTC date is today. */
  function TodayPoints(es: seq<Engagement>, today: string): nat
  {
    if es == [] then 0
    else TodayPoints(es[..|es| - 1], today) + (if es[|es| - 1].createdAt.date == today then Points(es[|es| - 1]) else 0)
  }

  lemma {:induction false} TodayAtMostTotal(es: seq<Engagement>, today: string)
    ensures TodayPoints(es, today) <= TotalPoints(es)
  {
    if es != [] {
      TodayAtMostTotal(es[..|es| - 1], today);
    }
  }

  lemma {:induction false} TotalBetween(es: seq<Engagement>)
    ensures OtherPoints * |es| <= TotalPoints(es) <= SharePoints * |es|
  {
    if es != [] {
      TotalBetween(es[..|es| - 1]);
    }
  }

  lemma {:induction false} TotalPointsAppend(a: seq<Engagement>, b: seq<Engagement>)
    ensures TotalPoints(a + b) == TotalPoints(a) + TotalPoints(b)
  {
    if b != [] {
      assert (a + b)[..|a + b| - 1] == a + b[..|b| - 1];
      TotalPointsAppend(a, b[..|b| - 1]);
    } else {
      assert a + b == a;
    }
  }

  predicate OnDay(today: string, e: Engagement)
  {
    e.createdAt.date == today
  }

  /** Today's points are the total points of today's engagements. */
  lemma {:induction false} TodayIsTotalOfToday(es: seq<Engagement>, today: string)
    ensures TodayPoints(es, today) == TotalPoints(Filter(e => OnDay(today, e), es))
  {
    var p := e => OnDay(today, e);
    if es != [] {
      var init, last := es[..|es| - 1], es[|es| - 1];
      assert es == init + [last];
      FilterAppend(p, init, [last]);
      TodayIsTotalOfToday(init, today);
      assert Filter(p, [last]) == (if p(last) then [last] else []) + Filter(p, []);
      TotalPointsAppend(Filter(p, init), Filter(p, [last]));
      assert TotalPoints([last]) == Points(last) by {
        assert [last][..0] == [];
      }
    }
  }

  /** The forEach loop: both accumulators start at 0 and every engagement adds its points
      to the total, and to today's points when its date is today. */
  method Accumulate(es: seq<Engagement>, today: string) returns (s: Stats)
    ensures s.totalPoints == TotalPoints(es) && s.todayPoints == TodayPoints(es, today)
    ensures s.todayPoints <= s.totalPoints
    ensures OtherPoints * |es| <= s.totalPoints <= SharePoints * |es|
  {
    var totalPoints: nat := 0;
    var todayPoints: nat := 0;
    var i := 0;
    while i < |es|
      invariant 0 <= i <= |es|
      invariant totalPoints == TotalPoints(es[..i])
      invariant todayPoints == TodayPoints(es[..i], today)
    {
      var points := Points(es[i]);
      totalPoints := totalPoints + points;
      if es[i].createdAt.date == today {
        todayPoints := todayPoints + points;
      }
      assert es[..i + 1][..i] == es[..i];
      i := i + 1;
    }
    assert es[..i] == es;
    TodayAtMostTotal(es, today);
    TotalBetween(es);
    s := Stats(totalPoints, todayPoints);
  }

  /** The hook's state before its effect first runs. */
  const InitialStats: Stats := Stats(0, 0)

  /** One run of useSocialStats's effect, which runs again whenever the user changes.
      prev is the state before this run (InitialStats on the first). Without a user, or when
      the query fails or returns no data (None), setStats is not called and prev is kept. */
  method FetchStats(prev: Stats, user: Option<string>, data: Option<seq<Engagement>>, today: string)
    returns (s: Stats)
    ensures user.None? || data.None? ==> s == prev
    ensures user.Some? && data.Some? ==>
              s == Stats(TotalPoints(data.value), TodayPoints(data.value, today))
  {
    s := prev;
    if user.None? {
      return;
    }
    if data.Some? {
      s := Accumulate(data.value, today);
    }
  }
}
