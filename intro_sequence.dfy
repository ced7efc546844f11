/**
 * The intro pager: five pages shown one after another, a page change that
 * takes effect when its animation ends, and a skip that finishes at once.
 */
module IntroSequence {

  datatype IntroPage = IntroPage(text: string, highlight: bool)

  /** The text of each page, first to last. */
  function PageText(k: nat): string
  {
    match k
    case 0 => "In the beginning, existence poured outward from the Pillars of Creation—vast structures older than gods, younger than nothing."
    case 1 => "At the rim of everything that still counted as something, reality swelled into a final membrane. Beyond it lay Oblivion—not darkness or chaos, but the absence of even the idea of being."
    case 2 => "There, orbiting twin suns of unmaking fire and god-forged light, sits Tasern—a small, stubborn world that catches everything that falls from dying universes."
    case 3 => "Time moves slowly here. History lingers. Myths refuse to fade. This is the last place where belief still has weight."
    case _ => "You feel yourself falling—through time, through space, through the membrane between what is and what was. The slow gravity of Tasern has caught you."
  }

  /** The five pages; only the last is highlighted. */
  function IntroPages(): (pages: seq<IntroPage>)
    ensures |pages| == PageCount
    ensures forall k :: 0 <= k < |pages| ==> (pages[k].highlight <==> k == PageCount - 1)
  {
    seq(PageCount, k requires 0 <= k => IntroPage(PageText(k), k == PageCount - 1))
  }

  const PageCount: nat := 5

  datatype PagerState = PagerState(currentPage: int, isTransitioning: bool)

  /** The page is in range, and a pending page change has a page to go to. */
  predicate PagerValid(st: PagerState)
  {
    0 <= st.currentPage < PageCount && (st.isTransitioning ==> st.currentPage < PageCount - 1)
  }

  predicate IsLastPage(st: PagerState)
  {
    st.currentPage == PageCount - 1
  }

  /** `handleNext`: ignored while a change is pending; on a page before the
      last it starts the change; on the last page it completes the intro. */
  function AfterNext(st: PagerState): (r: (PagerState, bool))
  {
    if st.isTransitioning then (st, false)
    else if st.currentPage < PageCount - 1 then (st.(isTransitioning := true), false)
    else (st, true)
  }

  /** The animation timer: the pending change moves to the next page. */
  function AfterElapsed(st: PagerState): PagerState
  {
    if st.isTransitioning then PagerState(st.currentPage + 1, false) else st
  }

  /** Next, followed by its timer, advances exactly one page before the last
      and completes without moving on the last; while a change is pending it
      does nothing. Both steps keep the page in range. */
  lemma NextSpec(st: PagerState)
    requires PagerValid(st)
    ensures PagerValid(AfterNext(st).0) && PagerValid(AfterElapsed(st))
    ensures st.isTransitioning ==> AfterNext(st) == (st, false)
    ensures !st.isTransitioning && !IsLastPage(st) ==>
      !AfterNext(st).1 && AfterElapsed(AfterNext(st).0) == PagerState(st.currentPage + 1, false)
    ensures !st.isTransitioning ==> (AfterNext(st).1 <==> IsLastPage(st))
    ensures AfterNext(st).1 ==> AfterNext(st).0 == st
  {
  }

  class Pager {
    var currentPage: int
    var isTransitioning: bool

    function Snapshot(): PagerState
      reads this
    {
      PagerState(currentPage, isTransitioning)
    }

    predicate Valid()
      reads this
    {
      PagerValid(Snapshot())
    }

    constructor ()
      ensures Valid() && Snapshot() == PagerState(0, false)
    {
      currentPage, isTransitioning := 0, false;
    }

    /** Returns whether `onComplete` was called. */
    method Next() returns (completed: bool)
      requires Valid()
      modifies this
      ensures Valid()
      ensures (Snapshot(), completed) == AfterNext(old(Snapshot()))
    {
      if isTransitioning {
        return false;
      }
      if currentPage < PageCount - 1 {
        isTransitioning := true;
        completed := false;
      } else {
        completed := true;
      }
    }

    /** `handleSkip` completes from any page and changes nothing. */
    method Skip() returns (completed: bool)
      ensures completed
    {
      completed := true;
    }

    method TransitionElapsed()
      requires Valid()
      modifies this
      ensures Valid()
      ensures Snapshot() == AfterElapsed(old(Snapshot()))
    {
      if isTransitioning {
        currentPage := currentPage + 1;
        isTransitioning := false;
      }
    }

    /** The page on screen. */
    function Page(): (p: IntroPage)
      requires Valid()
      reads this
      ensures p.text == PageText(currentPage)
      ensures p.highlight <==> IsLastPage(Snapshot())
    {
      IntroPages()[currentPage]
    }
  }
}
