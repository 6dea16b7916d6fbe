/** The bio dialogue: a pager over five fixed pages whose text is typed
    one character per timer tick, with a "next" indicator shown once a page
    is complete. */
module Dialogue {
  import opened Wrappers

  const Pages: seq<string> := [
    "WILFORD. is a Canadian producer and musician hailing from Saskatoon, Saskatchewan.",
    "Creating experimental electronic music that pushes boundaries and explores new sonic territories.",
    "From glitchy beats to ambient soundscapes, each release is a journey into the unknown.",
    "The music of WILFORD. is an expression of creativity without limits - a blend of emotion and experimentation.",
    "Thank you for listening and supporting independent music. The adventure continues..."
  ]

  const LastPage: nat := |Pages| - 1

  const EndMark := "[ END ]"

  /** The pause after typing `c`, in milliseconds; `jitter` is the
      `Math.random()` draw. */
  function Delay(c: char, jitter: real): (d: real)
    requires 0.0 <= jitter < 1.0
    ensures c == '.' ==> d == 300.0
    ensures c == ',' ==> d == 150.0
    ensures c != '.' && c != ',' ==> 30.0 <= d < 50.0
  {
    if c == '.' then 300.0 else if c == ',' then 150.0 else 30.0 + jitter * 20.0
  }

  // ---------------------------------------------------------------------
  // The indicator once a page is complete

  /** What the indicator looks like: its text and whether it blinks. */
  datatype Indicator = Indicator(text: string, blinks: bool)

  /** As the script writes it: completing the last page sets the text to
      "[ END ]" and stops the blinking; completing any other page leaves both
      as they were. */
  function IndicatorAsWritten(before: Indicator, page: nat): Indicator
  {
    if page < LastPage then before else Indicator(EndMark, false)
  }

  /** Once the dialogue has been read to the end, a later reading shows
      "[ END ]", not blinking, under every page, the first one included. */
  lemma EndMarkSticks(markup: Indicator)
    ensures forall p: nat :: IndicatorAsWritten(IndicatorAsWritten(markup, LastPage), p) == Indicator(EndMark, false)
    ensures markup != Indicator(EndMark, false) ==>
      IndicatorAsWritten(IndicatorAsWritten(markup, LastPage), 0) != IndicatorAsWritten(markup, 0)
  {
  }

  /** The indicator a completed page should show: the markup's own one on
      every page but the last, "[ END ]" without blinking on the last,
      whatever was completed before. */
  function IndicatorFor(markup: Indicator, page: nat): (r: Indicator)
    ensures page < LastPage ==> r == markup
    ensures page >= LastPage ==> r == Indicator(EndMark, false)
  {
    if page < LastPage then markup else Indicator(EndMark, false)
  }

  /** The indicator as the script leaves it after the pages `pages` have
      been completed in that order, starting from the markup `before`. */
  function CompletedAsWritten(before: Indicator, pages: seq<nat>): Indicator
    decreases |pages|
  {
    if pages == [] then before
    else IndicatorAsWritten(CompletedAsWritten(before, pages[..|pages| - 1]), pages[|pages| - 1])
  }

  /** Completing only pages before the last leaves the markup alone; once the
      last page has been completed, "[ END ]" stays. */
  lemma {:induction false} CompletedAsWrittenState(markup: Indicator, pages: seq<nat>)
    ensures CompletedAsWritten(markup, pages) ==
      if forall i :: 0 <= i < |pages| ==> pages[i] < LastPage then markup else Indicator(EndMark, false)
    decreases |pages|
  {
    if pages != [] {
      var init := pages[..|pages| - 1];
      CompletedAsWrittenState(markup, init);
      assert forall i :: 0 <= i < |init| ==> init[i] == pages[i];
    }
  }

  /** The script shows the indicator a completed page should show exactly
      when that page is the last one or the last page has not been completed
      before: on a first reading the two agree, on every later one they do
      not. */
  lemma AsWrittenAgreesUntilEnd(markup: Indicator, pages: seq<nat>)
    requires pages != [] && markup != Indicator(EndMark, false)
    ensures var p := pages[|pages| - 1];
      CompletedAsWritten(markup, pages) == IndicatorFor(markup, p) <==>
        p >= LastPage || forall i :: 0 <= i < |pages| - 1 ==> pages[i] < LastPage
  {
    var p := pages[|pages| - 1];
    var init := pages[..|pages| - 1];
    CompletedAsWrittenState(markup, init);
    assert forall i :: 0 <= i < |init| ==> init[i] == pages[i];
  }

  // ---------------------------------------------------------------------
  // The pager

  /** The pending typewriter timeout: the page it types, how many
      characters are already shown, and the delay it was set with. */
  datatype Typewriter = Typewriter(page: nat, charIndex: nat, delay: real)

  class Dialogue {
    /** The indicator as the page's markup has it. */
    const markup: Indicator
    var currentPage: nat
    var isTyping: bool
    /** The text of the dialogue box. */
    var text: string
    var indicatorShown: bool
    var indicator: Indicator
    var typewriter: Option<Typewriter>
    /** 'move' cues played on page changes. */
    var moveSounds: nat

    ghost predicate Valid()
      reads this
    {
      && currentPage < |Pages|
      && (isTyping <==> typewriter.Some?)
      && (typewriter.Some? ==>
            var t := typewriter.value;
            && t.page == currentPage
            && t.charIndex <= |Pages[t.page]|
            && text == Pages[t.page][..t.charIndex]
            && !indicatorShown)
      && (indicatorShown ==> text == Pages[currentPage] && indicator == IndicatorFor(markup, currentPage))
    }

    /** The state at page load; the dialogue box's contents before the first
        page are not modelled (empty text, indicator hidden). */
    constructor (m: Indicator)
      ensures Valid()
      ensures markup == m && indicator == m
      ensures currentPage == 0 && !isTyping && typewriter == None
      ensures text == "" && !indicatorShown && moveSounds == 0
    {
      markup := m;
      indicator := m;
      currentPage := 0;
      isTyping := false;
      typewriter := None;
      text := "";
      indicatorShown := false;
      moveSounds := 0;
    }

    /** The page is complete: typing stops and the indicator appears. */
    method Finish()
      requires currentPage < |Pages| && text == Pages[currentPage]
      modifies this`isTyping, this`typewriter, this`indicatorShown, this`indicator
      ensures Valid()
      ensures !isTyping && typewriter == None && indicatorShown
      ensures indicator == IndicatorFor(markup, currentPage)
    {
      isTyping := false;
      typewriter := None;
      indicatorShown := true;
      indicator := IndicatorFor(markup, currentPage);
    }

    /** `typeChar`: one more character, or completion once all are shown. */
    method TypeChar(jitter: real)
      requires Valid() && typewriter.Some? && 0.0 <= jitter < 1.0
      modifies this`text, this`typewriter, this`isTyping, this`indicatorShown, this`indicator
      ensures Valid()
      ensures var t := old(typewriter.value);
        t.charIndex < |Pages[t.page]| ==>
          && text == Pages[t.page][..t.charIndex + 1]
          && typewriter == Some(Typewriter(t.page, t.charIndex + 1, Delay(Pages[t.page][t.charIndex], jitter)))
          && isTyping && !indicatorShown
      ensures var t := old(typewriter.value);
        t.charIndex == |Pages[t.page]| ==>
          && text == Pages[t.page] && !isTyping && typewriter == None
          && indicatorShown && indicator == IndicatorFor(markup, t.page)
    {
      var t := typewriter.value;
      var page := Pages[t.page];
      if t.charIndex < |page| {
        var c := page[t.charIndex];
        assert page[..t.charIndex + 1] == page[..t.charIndex] + [c];
        text := text + [c];
        typewriter := Some(Typewriter(t.page, t.charIndex + 1, Delay(c, jitter)));
      } else {
        assert text == page;
        Finish();
      }
    }

    /** `showDialoguePage(p)`, always called with the current page (which
        may have just moved past a completed one); an index past the last
        page is ignored. The first character appears at once. */
    method ShowDialoguePage(p: nat, jitter: real)
      requires currentPage < |Pages| && 0.0 <= jitter < 1.0
      requires p < |Pages| ==> p == currentPage
      requires p >= |Pages| ==> Valid()
      modifies this`text, this`typewriter, this`isTyping, this`indicatorShown, this`indicator
      ensures Valid()
      ensures p >= |Pages| ==> unchanged(this)
      ensures p < |Pages| ==>
        && isTyping && !indicatorShown
        && text == Pages[p][..1]
        && typewriter == Some(Typewriter(p, 1, Delay(Pages[p][0], jitter)))
    {
      if p >= |Pages| {
        return;
      }
      text := "";
      indicatorShown := false;
      isTyping := true;
      typewriter := Some(Typewriter(p, 0, 0.0));
      TypeChar(jitter);
    }

    /** The typewriter's timeout fires. */
    method TimerFires(jitter: real)
      requires Valid() && 0.0 <= jitter < 1.0
      modifies this`text, this`typewriter, this`isTyping, this`indicatorShown, this`indicator
      ensures Valid()
      ensures old(typewriter).None? ==> unchanged(this)
      ensures old(typewriter).Some? && old(typewriter.value.charIndex) < |Pages[currentPage]| ==>
        && text == Pages[currentPage][..old(typewriter.value.charIndex) + 1] && isTyping
      ensures old(typewriter).Some? && old(typewriter.value.charIndex) == |Pages[currentPage]| ==>
        && text == Pages[currentPage] && !isTyping && indicatorShown
        && indicator == IndicatorFor(markup, currentPage)
    {
      if typewriter.None? {
        return;
      }
      TypeChar(jitter);
    }

    /** `initBioDialogue`: back to the first page, typed afresh. */
    method InitBioDialogue(jitter: real)
      requires Valid() && 0.0 <= jitter < 1.0
      modifies this`currentPage, this`text, this`typewriter, this`isTyping, this`indicatorShown,
               this`indicator
      ensures Valid()
      ensures currentPage == 0 && isTyping && text == Pages[0][..1]
      ensures typewriter == Some(Typewriter(0, 1, Delay(Pages[0][0], jitter)))
    {
      currentPage := 0;
      typewriter := None;
      isTyping := false;
      indicatorShown := false;
      ShowDialoguePage(0, jitter);
    }

    /** `advanceDialogue`: while typing, the page is completed at once and
        the page index stays; otherwise the next page starts, except on the
        last page, where nothing happens. */
    method AdvanceDialogue(jitter: real)
      requires Valid() && 0.0 <= jitter < 1.0
      modifies this`currentPage, this`text, this`typewriter, this`isTyping, this`indicatorShown,
               this`indicator, this`moveSounds
      ensures Valid()
      ensures old(isTyping) ==>
        && currentPage == old(currentPage) && text == Pages[currentPage] && !isTyping
        && indicatorShown && indicator == IndicatorFor(markup, currentPage)
        && moveSounds == old(moveSounds)
      ensures !old(isTyping) && old(currentPage) < LastPage ==>
        && currentPage == old(currentPage) + 1 && moveSounds == old(moveSounds) + 1
        && isTyping && text == Pages[currentPage][..1]
      ensures !old(isTyping) && old(currentPage) == LastPage ==> unchanged(this)
    {
      if isTyping {
        typewriter := None;
        text := Pages[currentPage];
        Finish();
      } else if currentPage < LastPage {
        currentPage := currentPage + 1;
        moveSounds := moveSounds + 1;
        ShowDialoguePage(currentPage, jitter);
      }
    }

    /** A keydown: Enter or Space advance while the bio screen is active. */
    method KeyDown(key: string, bioScreenActive: bool, jitter: real)
      requires Valid() && 0.0 <= jitter < 1.0
      modifies this`currentPage, this`text, this`typewriter, this`isTyping, this`indicatorShown,
               this`indicator, this`moveSounds
      ensures Valid()
      ensures !(bioScreenActive && (key == "Enter" || key == " ")) ==> unchanged(this)
      ensures currentPage <= LastPage
    {
      if bioScreenActive && (key == "Enter" || key == " ") {
        AdvanceDialogue(jitter);
      }
    }
  }
}
