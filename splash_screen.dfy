/** The onboarding splash screen: three pages, a Next button on all but the last and a
    Get Started button on the last. */
module SplashScreen {

  const PageCount: nat := 3

  datatype NavButton = Next | GetStarted

  /** What Get Started does, in order: mark the splash as completed, then hand over. */
  datatype Effect = MarkSplashCompleted | Complete

  /** `currentPage < pages.length - 1 ? Next : Get Started` */
  function NavButtonFor(page: nat): (b: NavButton)
    requires page < PageCount
    ensures b == Next <==> page < PageCount - 1
    ensures b == GetStarted <==> page == PageCount - 1
  {
    if page < PageCount - 1 then Next else GetStarted
  }

  /** The page indicator: one dot per page, highlighted exactly for the current page. */
  function Indicator(page: nat): (dots: seq<bool>)
    requires page < PageCount
    ensures |dots| == PageCount
    ensures dots[page]
    ensures forall i :: 0 <= i < |dots| && i != page ==> !dots[i]
  {
    seq(PageCount, i requires 0 <= i < PageCount => i == page)
  }

  /** Each press of Next moves one page on (Pager.HandleNext) and is possible only where
      Next is shown. From the first page, k presses are possible, passing pages 0 .. k - 1,
      exactly when k is at most PageCount - 1; after them the last page offers Get Started. */
  lemma PagesInOrder(k: nat)
    ensures (forall p :: 0 <= p < k ==> p < PageCount && NavButtonFor(p) == Next) <==> k <= PageCount - 1
    ensures k == PageCount - 1 ==> NavButtonFor(k) == GetStarted
  {
    if k > PageCount - 1 {
      assert NavButtonFor(PageCount - 1) == GetStarted;
    }
  }

  class Pager {
    var currentPage: nat
    var effects: seq<Effect>

    ghost predicate Valid()
      reads this
    {
      currentPage < PageCount
    }

    constructor ()
      ensures Valid() && currentPage == 0 && effects == []
    {
      currentPage := 0;
      effects := [];
    }

    /** handleNext, wired to the Next button only. */
    method HandleNext()
      requires Valid() && NavButtonFor(currentPage) == Next
      modifies this`currentPage
      ensures Valid()
      ensures currentPage == old(currentPage) + 1
    {
      currentPage := currentPage + 1;
    }

    /** handleGetStarted: the two effects, marking first. */
    method HandleGetStarted()
      requires Valid()
      modifies this`effects
      ensures effects == old(effects) + [MarkSplashCompleted, Complete]
    {
      effects := effects + [MarkSplashCompleted];
      effects := effects + [Complete];
    }
  }
}
