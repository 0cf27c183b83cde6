/** The page layout of the checklist form's report: a vertical cursor that
    moves down the page by a line spacing after every drawn line and jumps
    back to the top of a fresh page once a line has been drawn below the
    bottom margin. The renderer is modelled by the events it sends to the
    canvas, in order; `ShowPage` stands for `showPage()` followed by
    re-applying the base font. */
module Pagination {

  /** Cursor of the first line on a fresh page. */
  const PageTop := 750
  /** A line drawn below this height ends the page. */
  const BottomMargin := 50
  /** Horizontal position of every body line. */
  const LeftMargin := 72
  /** The two spacings the report uses: 20 by default, 30 after a heading. */
  const LineSpacing := 20
  const WideSpacing := 30
  /** The lowest height a line can be drawn at: the margin minus the widest
      spacing. */
  const LowestLine := BottomMargin - WideSpacing
  /** Lines of default spacing that fit on one page: 750, 730, ..., 30. */
  const LinesPerPage := 37

  datatype Event =
    | DrawImage(x: int, y: int)
    | DrawText(x: int, y: int, text: string)
    | ShowPage

  /** A line of the report and the spacing passed to the page check after it. */
  datatype Line = Line(text: string, spacing: int)

  predicate ValidSpacing(s: int) {
    s == LineSpacing || s == WideSpacing
  }

  predicate ValidSpacings(lines: seq<Line>) {
    forall i :: 0 <= i < |lines| ==> ValidSpacing(lines[i].spacing)
  }

  predicate OnPage(y: int) {
    LowestLine <= y <= PageTop
  }

  /** `check_page_space`: after a line at height `y`, start a new page when
      `y` is below the margin, else move down by `spacing`. From any cursor
      not above the top of the page the next cursor is again on the page,
      and it is the top of a page exactly when a new page was started. */
  function CheckPageSpace(y: int, spacing: int): (next: int)
    ensures y <= PageTop && ValidSpacing(spacing) ==> OnPage(next)
    ensures y <= PageTop && ValidSpacing(spacing) ==> (next == PageTop <==> y < BottomMargin)
    ensures y >= BottomMargin ==> y - next == spacing
  {
    if y < BottomMargin then PageTop else y - spacing
  }

  /** The draw loop: each line is drawn at the cursor, then the page check
      runs with that line's spacing. Each line yields its draw and at most
      one page break, and the loop draws no image. */
  function Layout(y: int, lines: seq<Line>): (ev: seq<Event>)
    decreases |lines|
    ensures |lines| <= |ev| <= 2 * |lines|
    ensures forall i :: 0 <= i < |ev| ==> !ev[i].DrawImage?
  {
    if lines == [] then []
    else
      [DrawText(LeftMargin, y, lines[0].text)]
      + (if y < BottomMargin then [ShowPage] else [])
      + Layout(CheckPageSpace(y, lines[0].spacing), lines[1..])
  }

  /** The texts drawn, in drawing order. */
  function Texts(events: seq<Event>): seq<string> {
    if events == [] then []
    else (if events[0].DrawText? then [events[0].text] else []) + Texts(events[1..])
  }

  function LineTexts(lines: seq<Line>): seq<string> {
    seq(|lines|, i requires 0 <= i < |lines| => lines[i].text)
  }

  lemma LineTextsAppend(a: seq<Line>, b: seq<Line>)
    ensures LineTexts(a + b) == LineTexts(a) + LineTexts(b)
  {
  }

  /** The number of pages started. */
  function BreakCount(events: seq<Event>): nat {
    if events == [] then 0 else (if events[0].ShowPage? then 1 else 0) + BreakCount(events[1..])
  }

  lemma {:induction false} TextsAppend(a: seq<Event>, b: seq<Event>)
    ensures Texts(a + b) == Texts(a) + Texts(b)
  {
    if a != [] {
      TextsAppend(a[1..], b);
      assert (a + b)[0] == a[0] && (a + b)[1..] == a[1..] + b;
    } else {
      assert a + b == b;
    }
  }

  /** A run of text draws shows exactly their texts. */
  lemma {:induction false} TextsOfDraws(events: seq<Event>)
    requires forall i :: 0 <= i < |events| ==> events[i].DrawText?
    ensures Texts(events) == seq(|events|, i requires 0 <= i < |events| => events[i].text)
    decreases |events|
  {
    if events != [] {
      TextsOfDraws(events[1..]);
    }
  }

  lemma {:induction false} BreakCountAppend(a: seq<Event>, b: seq<Event>)
    ensures BreakCount(a + b) == BreakCount(a) + BreakCount(b)
  {
    if a != [] {
      BreakCountAppend(a[1..], b);
      assert (a + b)[0] == a[0] && (a + b)[1..] == a[1..] + b;
    } else {
      assert a + b == b;
    }
  }

  /** The layout of a non-empty list opens with its first line at the cursor. */
  lemma LayoutStart(y: int, lines: seq<Line>)
    requires lines != []
    ensures Layout(y, lines)[0] == DrawText(LeftMargin, y, lines[0].text)
  {
  }

  /** Page breaks never drop or repeat a line: the texts drawn are the
      lines' texts, each once, in order. */
  lemma {:induction false} LayoutDrawsEachLineOnce(y: int, lines: seq<Line>)
    ensures Texts(Layout(y, lines)) == LineTexts(lines)
    decreases |lines|
  {
    if lines != [] {
      var next := CheckPageSpace(y, lines[0].spacing);
      var head := [DrawText(LeftMargin, y, lines[0].text)] + (if y < BottomMargin then [ShowPage] else []);
      LayoutDrawsEachLineOnce(next, lines[1..]);
      TextsAppend(head, Layout(next, lines[1..]));
      assert Texts(head) == [lines[0].text] by {
        assert head[1..] == [] || head[1..] == [ShowPage];
      }
      assert LineTexts(lines) == [lines[0].text] + LineTexts(lines[1..]);
    }
  }

  /** Starting on the page with spacings of 20 or 30, every line is drawn at
      the left margin at a height between 20 and 750. */
  lemma {:induction false} LayoutStaysOnPage(y: int, lines: seq<Line>)
    requires OnPage(y) && ValidSpacings(lines)
    ensures forall e :: e in Layout(y, lines) && e.DrawText? ==> e.x == LeftMargin && OnPage(e.y)
    decreases |lines|
  {
    if lines != [] {
      var next := CheckPageSpace(y, lines[0].spacing);
      LayoutStaysOnPage(next, lines[1..]);
    }
  }

  /** A new page is started right after a line drawn below the margin, and
      at no other point. */
  lemma {:induction false} LayoutBreaksBelowMargin(y: int, lines: seq<Line>)
    ensures var ev := Layout(y, lines);
      forall i :: 0 <= i < |ev| ==> (ev[i].ShowPage? <==> i > 0 && ev[i - 1].DrawText? && ev[i - 1].y < BottomMargin)
    decreases |lines|
  {
    if lines != [] {
      var next := CheckPageSpace(y, lines[0].spacing);
      var head := [DrawText(LeftMargin, y, lines[0].text)] + (if y < BottomMargin then [ShowPage] else []);
      var rest := Layout(next, lines[1..]);
      var ev := Layout(y, lines);
      assert ev == head + rest;
      LayoutBreaksBelowMargin(next, lines[1..]);
      if lines[1..] != [] {
        LayoutStart(next, lines[1..]);
      }
      forall i | 0 <= i < |ev|
        ensures ev[i].ShowPage? <==> i > 0 && ev[i - 1].DrawText? && ev[i - 1].y < BottomMargin
      {
        if i >= |head| {
          assert ev[i] == rest[i - |head|];
          if i > |head| {
            assert ev[i - 1] == rest[i - 1 - |head|];
          }
        }
      }
    }
  }

  /** Within a page the lines go strictly down; the line after a page break
      is at the top of the new page. */
  lemma {:induction false} LayoutPageStructure(y: int, lines: seq<Line>)
    requires ValidSpacings(lines)
    ensures var ev := Layout(y, lines);
      forall i :: 0 < i < |ev| && ev[i - 1].DrawText? && ev[i].DrawText? ==> ev[i].y < ev[i - 1].y
    ensures var ev := Layout(y, lines);
      forall i :: 0 < i < |ev| && ev[i - 1].ShowPage? ==> ev[i].DrawText? && ev[i].y == PageTop
    decreases |lines|
  {
    if lines != [] {
      var next := CheckPageSpace(y, lines[0].spacing);
      var head := [DrawText(LeftMargin, y, lines[0].text)] + (if y < BottomMargin then [ShowPage] else []);
      var rest := Layout(next, lines[1..]);
      var ev := Layout(y, lines);
      assert ev == head + rest;
      LayoutPageStructure(next, lines[1..]);
      if lines[1..] != [] {
        LayoutStart(next, lines[1..]);
      }
      forall i | 0 < i < |ev|
        ensures ev[i - 1].DrawText? && ev[i].DrawText? ==> ev[i].y < ev[i - 1].y
        ensures ev[i - 1].ShowPage? ==> ev[i].DrawText? && ev[i].y == PageTop
      {
        if i >= |head| {
          assert ev[i] == rest[i - |head|];
          if i > |head| {
            assert ev[i - 1] == rest[i - 1 - |head|];
          }
        }
      }
    }
  }

  /** The layout drawn after a fixed prefix of events (a letterhead): the
      first body line at the start cursor, then every body draw at the left
      margin and on the page, no image, and page breaks exactly after body
      lines drawn below the margin. */
  lemma PrefixedLayout(h: seq<Event>, y: int, lines: seq<Line>)
    requires OnPage(y) && ValidSpacings(lines) && lines != []
    ensures var ev := h + Layout(y, lines);
      ev[|h|] == DrawText(LeftMargin, y, lines[0].text)
    ensures var ev := h + Layout(y, lines);
      forall i :: |h| <= i < |ev| ==>
        !ev[i].DrawImage? && (ev[i].DrawText? ==> ev[i].x == LeftMargin && OnPage(ev[i].y))
    ensures var ev := h + Layout(y, lines);
      forall i :: |h| <= i < |ev| ==>
        (ev[i].ShowPage? <==> i > |h| && ev[i - 1].DrawText? && ev[i - 1].y < BottomMargin)
    ensures var ev := h + Layout(y, lines);
      forall i :: |h| < i < |ev| && ev[i - 1].ShowPage? ==> ev[i].DrawText? && ev[i].y == PageTop
  {
    var body := Layout(y, lines);
    var ev := h + body;
    LayoutStart(y, lines);
    LayoutStaysOnPage(y, lines);
    LayoutBreaksBelowMargin(y, lines);
    LayoutPageStructure(y, lines);
    forall i | |h| <= i < |ev|
      ensures ev[i] == body[i - |h|]
      ensures !ev[i].DrawImage?
    {
    }
  }

  predicate Uniform(lines: seq<Line>) {
    forall i :: 0 <= i < |lines| ==> lines[i].spacing == LineSpacing
  }

  /** With the default spacing, a page holds exactly 37 lines: starting `k`
      lines down a page, `n` lines start `(n + k) / 37` new pages. From the
      top of a page the lines therefore fill `n / 37` whole pages and put the
      remaining `n % 37` lines on the next one. */
  lemma {:induction false} UniformPageBreaks(k: nat, lines: seq<Line>)
    requires k < LinesPerPage && Uniform(lines)
    ensures BreakCount(Layout(PageTop - LineSpacing * k, lines)) == (|lines| + k) / LinesPerPage
    decreases |lines|
  {
    if lines != [] {
      var y := PageTop - LineSpacing * k;
      var next := CheckPageSpace(y, lines[0].spacing);
      var head := [DrawText(LeftMargin, y, lines[0].text)] + (if y < BottomMargin then [ShowPage] else []);
      BreakCountAppend(head, Layout(next, lines[1..]));
      assert BreakCount(head) == (if y < BottomMargin then 1 else 0) by {
        assert head[1..] == [] || head[1..] == [ShowPage];
      }
      if k == LinesPerPage - 1 {
        UniformPageBreaks(0, lines[1..]);
      } else {
        UniformPageBreaks(k + 1, lines[1..]);
      }
    }
  }
}
