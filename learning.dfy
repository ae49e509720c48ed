/**
 * The learning module: a sequence of page images walked with previous and
 * next buttons, a progress bar, and a "Start Quiz" button on the last page.
 * The widgets are modelled by the state displayPage gives them; the
 * onFinish callback is counted, not run.
 */
module Learning {
  import opened Wrappers
  import opened Arith

  /** The page showNextPage moves to: one on, unless already on the last page. */
  function NextPage(current: int, totalPages: int): (r: int)
    ensures r == current || r == current + 1
    ensures r == current + 1 <==> current < totalPages - 1
  {
    if current < totalPages - 1 then current + 1 else current
  }

  /** The page showPreviousPage moves to: one back, unless already on the first page. */
  function PreviousPage(current: int): (r: int)
    ensures r == current || r == current - 1
    ensures r == current - 1 <==> current > 0
  {
    if current > 0 then current - 1 else current
  }

  /** Both moves keep a page index inside 0 .. totalPages - 1. */
  lemma MovesStayInRange(current: int, totalPages: int)
    requires 0 <= current < totalPages
    ensures 0 <= NextPage(current, totalPages) < totalPages
    ensures 0 <= PreviousPage(current) < totalPages
  {
  }

  /** Previous undoes next away from the last page, and next undoes previous away from the first. */
  lemma MovesUndoEachOther(current: int, totalPages: int)
    requires 0 <= current < totalPages
    ensures current < totalPages - 1 ==> PreviousPage(NextPage(current, totalPages)) == current
    ensures current > 0 ==> NextPage(PreviousPage(current), totalPages) == current
  {
  }

  /** The page reached by pressing next k times from page current. */
  function NextTimes(current: int, totalPages: int, k: nat): int
  {
    if k == 0 then current else NextPage(NextTimes(current, totalPages, k - 1), totalPages)
  }

  /** From the first page, k presses of next reach page min(k, totalPages - 1). */
  lemma {:induction false} NextTimesFromStart(totalPages: int, k: nat)
    requires totalPages > 0
    ensures NextTimes(0, totalPages, k) == if k < totalPages - 1 then k else totalPages - 1
  {
    if k > 0 {
      NextTimesFromStart(totalPages, k - 1);
    }
  }

  /** updateProgress: 0 with at most one page, otherwise current / (totalPages - 1). */
  function ProgressFor(current: int, totalPages: int): real
  {
    if totalPages <= 1 then 0.0 else current as real / (totalPages - 1) as real
  }

  /**
   * On a page in range the progress lies in 0 .. 1, is 1 exactly on the last
   * page of a module with several pages, and grows with the page.
   */
  lemma ProgressBounds(current: int, totalPages: int)
    requires 0 <= current < totalPages
    ensures 0.0 <= ProgressFor(current, totalPages) <= 1.0
    ensures ProgressFor(current, totalPages) == 1.0 <==> totalPages > 1 && current == totalPages - 1
    ensures ProgressFor(current, totalPages) == 0.0 <==> totalPages == 1 || current == 0
  {
    if totalPages > 1 {
      var d := (totalPages - 1) as real;
      QuotientAtLeast(current as real, d, 1.0);
      QuotientAtMost(current as real, d, 1.0);
      QuotientAtLeast(current as real, d, 0.0);
      QuotientAtMost(current as real, d, 0.0);
    }
  }

  lemma ProgressMonotone(current: int, later: int, totalPages: int)
    requires 0 <= current < later < totalPages
    ensures ProgressFor(current, totalPages) < ProgressFor(later, totalPages)
  {
    var d := (totalPages - 1) as real;
    var p := ProgressFor(current, totalPages);
    QuotientAtMost(current as real, d, p);
    QuotientAtLeast(later as real, d, p);
    assert p * d == current as real;
    QuotientAtMost(later as real, d, p);
  }

  class LearningModule {
    /** The image paths, in page order. */
    const pages: seq<string>
    const totalPages: int
    /** Whether an onFinish callback was given. */
    const hasOnFinish: bool
    var currentPage: int
    /** How many times onFinish has been run. */
    var finishRuns: nat

    /** The widget state displayPage sets. */
    var shownPage: Option<string>
    var prevDisabled: bool
    var nextVisible: bool
    var startQuizVisible: bool
    /** The progress bar's value; -1 is its initial indeterminate state. */
    var progress: real

    /** What displayPage shows for the current page. */
    ghost predicate Displayed()
      reads this
      requires 0 <= currentPage < |pages|
    {
      && shownPage == Some(pages[currentPage])
      && progress == ProgressFor(currentPage, totalPages)
      && prevDisabled == (currentPage == 0)
      && startQuizVisible == (currentPage == totalPages - 1)
      && nextVisible == !startQuizVisible
    }

    ghost predicate Valid()
      reads this
    {
      && totalPages == |pages|
      && (pages == [] ==> currentPage == 0)
      && (pages != [] ==> 0 <= currentPage < totalPages && Displayed())
    }

    /**
     * loadPages with the sorted image paths given, then the first display:
     * with no pages, onFinish runs at once.
     */
    constructor (pages: seq<string>, hasOnFinish: bool)
      ensures Valid()
      ensures this.pages == pages && this.hasOnFinish == hasOnFinish && currentPage == 0
      ensures finishRuns == if pages == [] && hasOnFinish then 1 else 0
      ensures pages == [] ==> shownPage == None && nextVisible && !startQuizVisible && !prevDisabled && progress == -1.0
    {
      this.pages := pages;
      totalPages := |pages|;
      this.hasOnFinish := hasOnFinish;
      currentPage := 0;
      finishRuns := 0;
      shownPage := None;
      prevDisabled := false;
      nextVisible := true;
      startQuizVisible := false;
      progress := -1.0;
      new;
      DisplayPage();
    }

    /**
     * With no pages, runs onFinish and leaves the widgets alone; otherwise
     * shows the current page and sets the progress and the buttons from it.
     */
    method DisplayPage()
      requires totalPages == |pages|
      requires pages != [] ==> 0 <= currentPage < totalPages
      modifies this
      ensures currentPage == old(currentPage)
      ensures pages == [] ==>
        finishRuns == old(finishRuns) + (if hasOnFinish then 1 else 0)
        && shownPage == old(shownPage) && progress == old(progress) && prevDisabled == old(prevDisabled)
        && nextVisible == old(nextVisible) && startQuizVisible == old(startQuizVisible)
      ensures pages != [] ==> finishRuns == old(finishRuns) && Displayed()
    {
      if pages == [] {
        if hasOnFinish {
          finishRuns := finishRuns + 1;
        }
        return;
      }
      shownPage := Some(pages[currentPage]);
      UpdateProgress();
      prevDisabled := currentPage == 0;
      if currentPage == totalPages - 1 {
        nextVisible := false;
        startQuizVisible := true;
      } else {
        nextVisible := true;
        startQuizVisible := false;
      }
    }

    method UpdateProgress()
      modifies this
      ensures progress == ProgressFor(currentPage, totalPages)
      ensures currentPage == old(currentPage) && finishRuns == old(finishRuns) && shownPage == old(shownPage)
      ensures prevDisabled == old(prevDisabled) && nextVisible == old(nextVisible) && startQuizVisible == old(startQuizVisible)
    {
      if totalPages <= 1 {
        progress := 0.0;
      } else {
        progress := currentPage as real / (totalPages - 1) as real;
      }
    }

    /** Moves one page on and redisplays, unless on the last page, where nothing changes. */
    method ShowNextPage()
      requires Valid()
      modifies this
      ensures Valid()
      ensures currentPage == NextPage(old(currentPage), totalPages)
      ensures old(currentPage) >= totalPages - 1 ==> unchanged(this)
      ensures finishRuns == old(finishRuns)
    {
      if currentPage < totalPages - 1 {
        currentPage := currentPage + 1;
        DisplayPage();
      }
    }

    /** Moves one page back and redisplays, unless on the first page, where nothing changes. */
    method ShowPreviousPage()
      requires Valid()
      modifies this
      ensures Valid()
      ensures currentPage == PreviousPage(old(currentPage))
      ensures old(currentPage) <= 0 ==> unchanged(this)
      ensures finishRuns == old(finishRuns)
    {
      if currentPage > 0 {
        currentPage := currentPage - 1;
        DisplayPage();
      }
    }

    /** Back to the first page; with no pages this runs onFinish again. */
    method Reset()
      requires Valid()
      modifies this
      ensures Valid()
      ensures currentPage == 0
      ensures finishRuns == old(finishRuns) + (if pages == [] && hasOnFinish then 1 else 0)
      ensures pages == [] ==> shownPage == old(shownPage) && progress == old(progress)
      ensures pages == [] ==> prevDisabled == old(prevDisabled) && nextVisible == old(nextVisible) && startQuizVisible == old(startQuizVisible)
    {
      currentPage := 0;
      DisplayPage();
    }

    /** The "Start Quiz" button: runs onFinish when there is one. */
    method StartQuiz()
      modifies this
      ensures finishRuns == old(finishRuns) + (if hasOnFinish then 1 else 0)
      ensures currentPage == old(currentPage) && shownPage == old(shownPage) && progress == old(progress)
      ensures prevDisabled == old(prevDisabled) && nextVisible == old(nextVisible) && startQuizVisible == old(startQuizVisible)
    {
      if hasOnFinish {
        finishRuns := finishRuns + 1;
      }
    }
  }
}
