/** The today's-profit hook: today's mined amounts, today's social points and
    today's course rewards added into one number. */
module TodayProfit {
  import opened Common
  import opened SocialStats

  datatype MiningRecord = MiningRecord(minedAmount: Option<real>, dateMined: string)

  /** A course_progress row with the reward of its course (None when the course or its reward is null). */
  datatype CourseProgress = CourseProgress(completed: bool, createdAt: Timestamp, reward: Option<real>)

  /** The created_at window `[today T00:00:00, today T23:59:59]` of the two timed queries. */
  predicate InWindow(today: string, t: Timestamp)
  {
    t.date == today && 0.0 <= t.seconds <= 86399.0
  }

  predicate MinedOn(today: string, r: MiningRecord) { r.dateMined == today }
  predicate EngagedInWindow(today: string, e: Engagement) { InWindow(today, e.createdAt) }
  predicate CompletedInWindow(today: string, c: CourseProgress) { c.completed && InWindow(today, c.createdAt) }

  /** The three queries the store answers, over the user's rows. */
  function MiningQuery(rows: seq<MiningRecord>, today: string): seq<MiningRecord>
  {
    Filter(r => MinedOn(today, r), rows)
  }

  function SocialQuery(rows: seq<Engagement>, today: string): seq<Engagement>
  {
    Filter(e => EngagedInWindow(today, e), rows)
  }

  function CourseQuery(rows: seq<CourseProgress>, today: string): seq<CourseProgress>
  {
    Filter(c => CompletedInWindow(today, c), rows)
  }

  function MinedAmounts(rows: seq<MiningRecord>): (r: seq<real>)
    ensures |r| == |rows| && forall i :: 0 <= i < |rows| ==> r[i] == OrZero(rows[i].minedAmount)
  {
    seq(|rows|, i requires 0 <= i < |rows| => OrZero(rows[i].minedAmount))
  }

  function Rewards(rows: seq<CourseProgress>): (r: seq<real>)
    ensures |r| == |rows| && forall i :: 0 <= i < |rows| ==> r[i] == OrZero(rows[i].reward)
  {
    seq(|rows|, i requires 0 <= i < |rows| => OrZero(rows[i].reward))
  }

  /** Each query's part: nothing when it returned no data. */
  function MiningPart(mining: Option<seq<MiningRecord>>, today: string): real
  {
    if mining.Some? then Sum(MinedAmounts(MiningQuery(mining.value, today))) else 0.0
  }

  function SocialPart(social: Option<seq<Engagement>>, today: string): real
  {
    if social.Some? then TotalPoints(SocialQuery(social.value, today)) as real else 0.0
  }

  function CoursePart(courses: Option<seq<CourseProgress>>, today: string): real
  {
    if courses.Some? then Sum(Rewards(CourseQuery(courses.value, today))) else 0.0
  }

  /** What the hook sets as today's profit, given the user's rows and which queries returned data. */
  function ExpectedProfit(
    mining: Option<seq<MiningRecord>>, social: Option<seq<Engagement>>, courses: Option<seq<CourseProgress>>,
    today: string): real
  {
    MiningPart(mining, today) + SocialPart(social, today) + CoursePart(courses, today)
  }

  /** The social forEach: a share adds 100, anything else 20, the weights of the social hook. */
  method AddSocial(totalProfit: real, socialData: seq<Engagement>) returns (after: real)
    ensures after == totalProfit + TotalPoints(socialData) as real
  {
    after := totalProfit;
    var i := 0;
    while i < |socialData|
      invariant 0 <= i <= |socialData|
      invariant after == totalProfit + TotalPoints(socialData[..i]) as real
    {
      after := after + if socialData[i].engagementType == "share" then 100.0 else 20.0;
      assert socialData[..i + 1][..i] == socialData[..i];
      i := i + 1;
    }
    assert socialData[..i] == socialData;
  }

  /** The course forEach: each completion adds its course's reward, 0 when there is none. */
  method AddCourses(totalProfit: real, courseData: seq<CourseProgress>) returns (after: real)
    ensures after == totalProfit + Sum(Rewards(courseData))
  {
    after := totalProfit;
    var i := 0;
    while i < |courseData|
      invariant 0 <= i <= |courseData|
      invariant after == totalProfit + Sum(Rewards(courseData[..i]))
    {
      after := after + OrZero(courseData[i].reward);
      assert Rewards(courseData[..i + 1]) == Rewards(courseData[..i]) + [OrZero(courseData[i].reward)];
      SumAppend(Rewards(courseData[..i]), [OrZero(courseData[i].reward)]);
      i := i + 1;
    }
    assert courseData[..i] == courseData;
  }

  /** The hook's profit before its effect first runs. */
  const InitialProfit: real := 0.0

  /** One run of fetchTodayProfit, which runs again whenever the user changes. prev is the
      profit before this run (InitialProfit on the first); without a user setProfit is not
      called and prev is kept. Each of the three queries is either answered (Some, the user's
      rows that the query filters) or returns no data (None); a query with no data adds
      nothing, and setProfit is still called. */
  method FetchTodayProfit(
    prev: real, user: Option<string>,
    mining: Option<seq<MiningRecord>>, social: Option<seq<Engagement>>, courses: Option<seq<CourseProgress>>,
    today: string) returns (profit: real)
    ensures user.None? ==> profit == prev
    ensures user.Some? ==> profit == ExpectedProfit(mining, social, courses, today)
  {
    profit := prev;
    if user.None? {
      return;
    }
    var totalProfit := 0.0;
    if mining.Some? {
      totalProfit := totalProfit + Sum(MinedAmounts(MiningQuery(mining.value, today)));
    }
    if social.Some? {
      totalProfit := AddSocial(totalProfit, SocialQuery(social.value, today));
    }
    if courses.Some? {
      totalProfit := AddCourses(totalProfit, CourseQuery(courses.value, today));
    }
    profit := totalProfit;
  }

  /** A null mined amount and a course without a reward add nothing. */
  lemma NullAmountsAddNothing(rows: seq<MiningRecord>, courses: seq<CourseProgress>, today: string)
    requires forall i :: 0 <= i < |rows| ==> rows[i].minedAmount.None?
    requires forall i :: 0 <= i < |courses| ==> courses[i].reward.None?
    ensures ExpectedProfit(Some(rows), None, Some(courses), today) == 0.0
  {
    var mined := MiningQuery(rows, today);
    var done := CourseQuery(courses, today);
    forall i | 0 <= i < |mined|
      ensures MinedAmounts(mined)[i] == 0.0
    {
      assert mined[i] in rows;
    }
    forall i | 0 <= i < |done|
      ensures Rewards(done)[i] == 0.0
    {
      assert done[i] in courses;
    }
    SumBetween(MinedAmounts(mined), 0.0, 0.0);
    SumBetween(Rewards(done), 0.0, 0.0);
  }

  /** The window ends at 23:59:59, so an engagement in the day's last second counts
      towards today's points in the social hook but not towards today's profit. */
  lemma LastSecondGap(today: string)
    ensures var e := Engagement("share", Timestamp(today, 86399.5));
            TodayPoints([e], today) == SharePoints && SocialQuery([e], today) == []
  {
    var e := Engagement("share", Timestamp(today, 86399.5));
    assert [e][..0] == [];
    assert [e][1..] == [];
  }

  /** The window only drops rows, so the social part of today's profit never exceeds
      today's points as the social hook counts them. */
  lemma SocialPartAtMostTodayPoints(rows: seq<Engagement>, today: string)
    ensures TotalPoints(SocialQuery(rows, today)) <= TodayPoints(rows, today)
  {
    TodayIsTotalOfToday(rows, today);
    SubsetFilterPoints(rows, today);
  }

  lemma {:induction false} SubsetFilterPoints(rows: seq<Engagement>, today: string)
    ensures TotalPoints(SocialQuery(rows, today)) <= TotalPoints(Filter(e => OnDay(today, e), rows))
  {
    var p := e => EngagedInWindow(today, e);
    var q := e => OnDay(today, e);
    if rows != [] {
      var init, last := rows[..|rows| - 1], rows[|rows| - 1];
      assert rows == init + [last];
      FilterAppend(p, init, [last]);
      FilterAppend(q, init, [last]);
      SubsetFilterPoints(init, today);
      assert Filter(p, [last]) == (if p(last) then [last] else []) + Filter(p, []);
      assert Filter(q, [last]) == (if q(last) then [last] else []) + Filter(q, []);
      TotalPointsAppend(Filter(p, init), Filter(p, [last]));
      TotalPointsAppend(Filter(q, init), Filter(q, [last]));
    }
  }
}
