/** The analytics dashboard: the four headline numbers and the two ratios under them. */
module AnalyticsDashboard {
  import opened Common
  import AdsManagement

  datatype Stats = Stats(totalUsers: nat, totalPosts: nat, totalAds: nat, totalRevenue: real)

  function InitialStats(): Stats { Stats(0, 0, 0, 0.0) }

  /** fetchStats: the two exact counts (absent when the count query failed) and the adverts
      rows (absent when that query failed). Only the `spent` field of an advert is read. */
  function FetchStats(usersCount: Option<nat>, postsCount: Option<nat>, ads: Option<seq<AdsManagement.Ad>>): (s: Stats)
    ensures s.totalUsers == (if usersCount.Some? then usersCount.value else 0)
    ensures s.totalPosts == (if postsCount.Some? then postsCount.value else 0)
    ensures ads.None? ==> s.totalAds == 0 && s.totalRevenue == 0.0
    ensures ads.Some? ==> s.totalAds == |ads.value|
  {
    var revenue := if ads.Some? then Sum(AdsManagement.Spends(ads.value)) else 0.0;
    Stats(
      if usersCount.Some? then usersCount.value else 0,
      if postsCount.Some? then postsCount.value else 0,
      if ads.Some? then |ads.value| else 0,
      revenue)
  }

  /** The revenue is the adverts' total spend, as the ads admin view computes it,
      and it is never negative when no spend is. */
  lemma RevenueIsTotalSpent(usersCount: Option<nat>, postsCount: Option<nat>, ads: seq<AdsManagement.Ad>)
    ensures FetchStats(usersCount, postsCount, Some(ads)).totalRevenue == AdsManagement.TotalSpent(ads)
    ensures (forall i :: 0 <= i < |ads| ==> OrZero(ads[i].spent) >= 0.0) ==>
              FetchStats(usersCount, postsCount, Some(ads)).totalRevenue >= 0.0
  {
    if forall i :: 0 <= i < |ads| ==> OrZero(ads[i].spent) >= 0.0 {
      SumNonNegative(AdsManagement.Spends(ads));
    }
  }

  /** A number as JavaScript shows it after a division. */
  datatype Displayed = Finite(value: real) | Infinity

  /** The posts/user figure as written: guarded by totalPosts > 0 only. */
  function PostsPerUserAsWritten(s: Stats): Displayed
  {
    if s.totalPosts > 0 then
      if s.totalUsers == 0 then Infinity else Finite(s.totalPosts as real / s.totalUsers as real)
    else Finite(0.0)
  }

  /** Posts but no counted users (e.g. the users count query failed) shows "Infinity posts/user". */
  lemma PostsPerUserAsWrittenDividesByZero()
    ensures PostsPerUserAsWritten(Stats(0, 3, 0, 0.0)) == Infinity
  {
  }

  /** The posts/user figure with the guard on the divisor. */
  function PostsPerUser(s: Stats): (r: real)
    ensures r >= 0.0
    ensures s.totalUsers > 0 ==> r * s.totalUsers as real == s.totalPosts as real
    ensures s.totalUsers == 0 ==> r == 0.0
  {
    if s.totalUsers > 0 then s.totalPosts as real / s.totalUsers as real else 0.0
  }

  /** Wherever the written guard gives a finite number, the corrected figure is the same number. */
  lemma PostsPerUserAgrees(s: Stats)
    requires s.totalUsers > 0 || s.totalPosts == 0
    ensures PostsPerUserAsWritten(s) == Finite(PostsPerUser(s))
  {
  }

  /** Average ad spend: revenue / ads when there are ads, 0 otherwise. */
  function AverageAdSpend(s: Stats): (r: real)
    ensures s.totalAds > 0 ==> r * s.totalAds as real == s.totalRevenue
    ensures s.totalAds == 0 ==> r == 0.0
  {
    if s.totalAds > 0 then s.totalRevenue / s.totalAds as real else 0.0
  }
}
