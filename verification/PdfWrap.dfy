/** `draw_line` of the PDF export: greedy word wrap with page breaks. */
module PdfWrap {
  import opened Text

  /** The page geometry and the advance width of each character in the chosen font. */
  datatype Layout = Layout(top: real, bottom: real, lineHeight: real, maxWidth: real, widthOf: char -> real)

  ghost predicate Sensible(l: Layout) {
    l.bottom < l.top && l.lineHeight > 0.0 && l.maxWidth >= 0.0 && forall c :: l.widthOf(c) >= 0.0
  }

  function Width(l: Layout, s: string): real {
    if s == "" then 0.0 else l.widthOf(s[0]) + Width(l, s[1..])
  }

  /** `text.split(" ")`, with `word` the part of the current word already read. */
  function SplitFrom(word: string, text: string): seq<string>
    decreases text
  {
    if text == "" then [word]
    else if text[0] == ' ' then [word] + SplitFrom("", text[1..])
    else SplitFrom(word + [text[0]], text[1..])
  }

  function Words(text: string): seq<string> {
    SplitFrom("", text)
  }

  // ---- the lines ----------------------------------------------------------------

  function Candidate(current: string, word: string): string {
    if current == "" then word else current + " " + word
  }

  /** The lines drawn for the remaining words when `current` is waiting to be drawn. */
  function Lines(l: Layout, words: seq<string>, current: string): seq<string> {
    if words == [] then [current]
    else
      var candidate := Candidate(current, words[0]);
      if Width(l, candidate) <= l.maxWidth then Lines(l, words[1..], candidate)
      else [current] + Lines(l, words[1..], words[0])
  }

  /** An empty last line is replaced by the text itself. */
  function DrawnLines(l: Layout, text: string): seq<string> {
    var lines := Lines(l, Words(text), "");
    if lines != [] && lines[|lines| - 1] == "" then lines[..|lines| - 1] + [text] else lines
  }

  // ---- the pages -----------------------------------------------------------------

  datatype Mark = Mark(page: nat, y: real, text: string)
  datatype Pen = Pen(page: nat, y: real)

  /** A line is never drawn at or below the bottom margin: it goes to a new page instead. */
  function Ready(l: Layout, p: Pen): Pen {
    if p.y <= l.bottom then Pen(p.page + 1, l.top) else p
  }

  function Below(l: Layout, p: Pen): Pen {
    p.(y := p.y - l.lineHeight)
  }

  function Placed(l: Layout, lines: seq<string>, p: Pen): seq<Mark> {
    if lines == [] then []
    else [Mark(Ready(l, p).page, Ready(l, p).y, lines[0])] + Placed(l, lines[1..], Below(l, Ready(l, p)))
  }

  function PenAfter(l: Layout, lines: seq<string>, p: Pen): Pen {
    if lines == [] then p else PenAfter(l, lines[1..], Below(l, Ready(l, p)))
  }

  /** For any text at all: the lines are drawn in order, each strictly above the bottom margin,
      going down the page, and a page is left only when its next line would not be above the margin. */
  lemma {:induction false} MarksAreOnThePage(l: Layout, lines: seq<string>, p: Pen, k: nat)
    requires Sensible(l) && k < |lines|
    ensures |Placed(l, lines, p)| == |lines|
    ensures var m := Placed(l, lines, p)[k];
      && m.text == lines[k] && m.y > l.bottom
      && (k + 1 < |lines| ==>
          var next := Placed(l, lines, p)[k + 1];
          (next.page == m.page && next.y == m.y - l.lineHeight) ||
          (next.page == m.page + 1 && next.y == l.top && m.y - l.lineHeight <= l.bottom))
  {
    PlacedCount(l, lines, p);
    if k > 0 {
      MarksAreOnThePage(l, lines[1..], Below(l, Ready(l, p)), k - 1);
    }
  }

  lemma {:induction false} PlacedCount(l: Layout, lines: seq<string>, p: Pen)
    ensures |Placed(l, lines, p)| == |lines|
  {
    if lines != [] { PlacedCount(l, lines[1..], Below(l, Ready(l, p))); }
  }

  // ---- as it runs -------------------------------------------------------------------

  class Canvas {
    const layout: Layout
    var page: nat
    var y: real
    var marks: seq<Mark>

    constructor (layout: Layout)
      ensures this.layout == layout && page == 0 && y == layout.top && marks == []
    {
      this.layout := layout;
      page, y, marks := 0, layout.top, [];
    }

    method DrawString(text: string)
      modifies this`marks
      ensures marks == old(marks) + [Mark(page, y, text)]
    {
      marks := marks + [Mark(page, y, text)];
    }

    method BreakIfFull()
      modifies this`page, this`y
      ensures Pen(page, y) == Ready(layout, old(Pen(page, y)))
    {
      if y <= layout.bottom {
        page, y := page + 1, layout.top;
      }
    }

    /** Draw the waiting line and move down, to a new page if this one is full. */
    method Emit(current: string)
      modifies this
      ensures marks == old(marks) + [Mark(old(page), old(y), current)]
      ensures Pen(page, y) == Ready(layout, Below(layout, old(Pen(page, y))))
    {
      hide Ready;
      DrawString(current);
      y := y - layout.lineHeight;
      BreakIfFull();
    }

    /** `draw_line`. */
    method DrawLine(text: string)
      modifies this
      ensures marks == old(marks) + Placed(layout, DrawnLines(layout, text), old(Pen(page, y)))
      ensures Pen(page, y) == PenAfter(layout, DrawnLines(layout, text), old(Pen(page, y)))
    {
      hide Width, Words, Placed, PenAfter, Lines, Ready, Below, Candidate, DrawnLines;
      ghost var start, before := Pen(page, y), marks;
      NothingPlaced(layout, start);
      BreakIfFull();
      var words := Words(text);
      var current := "";
      ghost var drawn: seq<string> := [];
      assert words[0..] == words;
      for n := 0 to |words|
        invariant drawn + Lines(layout, words[n..], current) == Lines(layout, words, "")
        invariant marks == before + Placed(layout, drawn, start)
        invariant Pen(page, y) == Ready(layout, PenAfter(layout, drawn, start))
      {
        LinesStep(layout, words, n, current);
        var candidate := Candidate(current, words[n]);
        if Width(layout, candidate) <= layout.maxWidth {
          current := candidate;
        } else {
          PlacedSnoc(layout, drawn, current, start);
          Emit(current);
          drawn := drawn + [current];
          current := words[n];
        }
      }
      LinesStep(layout, words, |words|, current);
      var last := if current != "" then current else text;
      PlacedSnoc(layout, drawn, last, start);
      DrawString(last);
      y := y - layout.lineHeight;
      LastLine(layout, text, drawn, current);
      assert Pen(page, y) == Below(layout, Ready(layout, PenAfter(layout, drawn, start)))
        by { OneDown(layout, Pen(page, y + layout.lineHeight)); }
    }
  }

  lemma OneDown(l: Layout, p: Pen)
    ensures Below(l, p) == Pen(p.page, p.y - l.lineHeight)
  {}

  lemma LastLine(l: Layout, text: string, drawn: seq<string>, current: string)
    requires Lines(l, Words(text), "") == drawn + [current]
    ensures DrawnLines(l, text) == drawn + [if current != "" then current else text]
  {}

  lemma NothingPlaced(l: Layout, p: Pen)
    ensures Placed(l, [], p) == [] && PenAfter(l, [], p) == p
  {}

  lemma LinesStep(l: Layout, words: seq<string>, n: nat, current: string)
    requires n <= |words|
    ensures Lines(l, words[n..], current) ==
      if n == |words| then [current]
      else if Width(l, Candidate(current, words[n])) <= l.maxWidth
        then Lines(l, words[n + 1..], Candidate(current, words[n]))
      else [current] + Lines(l, words[n + 1..], words[n])
  {
    hide Width;
    if n < |words| { assert words[n..][1..] == words[n + 1..]; }
  }

  lemma {:induction false} PlacedSnoc(l: Layout, lines: seq<string>, s: string, p: Pen)
    ensures var at := Ready(l, PenAfter(l, lines, p));
      && Placed(l, lines + [s], p) == Placed(l, lines, p) + [Mark(at.page, at.y, s)]
      && PenAfter(l, lines + [s], p) == Below(l, at)
  {
    if lines == [] {
      assert lines + [s] == [s];
      assert Placed(l, [s][1..], Below(l, Ready(l, p))) == [];
    } else {
      assert (lines + [s])[1..] == lines[1..] + [s];
      PlacedSnoc(l, lines[1..], s, Below(l, Ready(l, p)));
    }
  }

  // ---- greedy is optimal ----------------------------------------------------------------

  lemma {:induction false} WidthConcat(l: Layout, a: string, b: string)
    ensures Width(l, a + b) == Width(l, a) + Width(l, b)
  {
    if a == "" {
      assert a + b == b;
    } else {
      assert (a + b)[1..] == a[1..] + b;
      WidthConcat(l, a[1..], b);
    }
  }

  lemma {:induction false} WidthNonNegative(l: Layout, s: string)
    requires Sensible(l)
    ensures Width(l, s) >= 0.0
  {
    if s != "" { WidthNonNegative(l, s[1..]); }
  }

  lemma {:induction false} JoinConcat(a: seq<string>, b: seq<string>)
    requires a != [] && b != []
    ensures Join(a + b, " ") == Join(a, " ") + " " + Join(b, " ")
  {
    assert (a + b)[1..] == a[1..] + b;
    if |a| > 1 {
      JoinConcat(a[1..], b);
      assert Join(a + b, " ") == a[0] + " " + (Join(a[1..], " ") + " " + Join(b, " "));
    } else {
      assert a[1..] + b == b;
    }
  }

  predicate Fits(l: Layout, words: seq<string>) {
    Width(l, Join(words, " ")) <= l.maxWidth
  }

  lemma SuffixFits(l: Layout, a: seq<string>, b: seq<string>)
    requires Sensible(l) && Fits(l, a + b)
    ensures Fits(l, b)
  {
    hide Join, Width;
    if a == [] {
      assert a + b == b;
    } else if b == [] {
      assert Width(l, Join(b, " ")) == 0.0 by { EmptyWidth(l); }
    } else {
      JoinConcat(a, b);
      WidthConcat(l, Join(a, " ") + " ", Join(b, " "));
      WidthNonNegative(l, Join(a, " ") + " ");
    }
  }

  lemma PrefixFits(l: Layout, a: seq<string>, b: seq<string>)
    requires Sensible(l) && Fits(l, a + b)
    ensures Fits(l, a)
  {
    hide Join, Width;
    if b == [] {
      assert a + b == a;
    } else if a == [] {
      assert Width(l, Join(a, " ")) == 0.0 by { EmptyWidth(l); }
    } else {
      JoinConcat(a, b);
      var tail := " " + Join(b, " ");
      assert Join(a, " ") + " " + Join(b, " ") == Join(a, " ") + tail;
      WidthConcat(l, Join(a, " "), tail);
      WidthNonNegative(l, tail);
    }
  }

  lemma EmptyWidth(l: Layout)
    ensures Width(l, Join([], " ")) == 0.0
  {}

  /** Part of a line that fits fits as well. */
  lemma PartFits(l: Layout, ws: seq<string>, s: nat, i: nat, k: nat, e: nat)
    requires Sensible(l) && s <= i <= k <= e <= |ws| && Fits(l, ws[s..e])
    ensures Fits(l, ws[i..k])
  {
    hide Fits, Sensible;
    assert ws[s..e] == ws[s..k] + ws[k..e];
    PrefixFits(l, ws[s..k], ws[k..e]);
    assert ws[s..k] == ws[s..i] + ws[i..k];
    SuffixFits(l, ws[s..i], ws[i..k]);
  }

  function Flat(groups: seq<seq<string>>): seq<string> {
    if groups == [] then [] else groups[0] + Flat(groups[1..])
  }

  /** Words that `draw_line` can lay out without overflow. */
  ghost predicate Regular(l: Layout, ws: seq<string>) {
    ws != [] && forall k :: 0 <= k < |ws| ==> ws[k] != "" && Fits(l, [ws[k]])
  }

  lemma JoinNotEmpty(ws: seq<string>, i: nat, k: nat)
    requires i < k <= |ws| && ws[i] != ""
    ensures Join(ws[i..k], " ") != ""
  {
    assert ws[i..k][0] == ws[i];
  }

  /** The waiting line holds the words `i` to `k`; one more word is tried. */
  lemma CandidateIsJoin(l: Layout, ws: seq<string>, i: nat, k: nat)
    requires i < k < |ws| && ws[i] != ""
    ensures Candidate(Join(ws[i..k], " "), ws[k]) == Join(ws[i..k + 1], " ")
  {
    JoinNotEmpty(ws, i, k);
    assert ws[i..k + 1] == ws[i..k] + [ws[k]];
    JoinConcat(ws[i..k], [ws[k]]);
  }

  lemma SingleJoin(w: string)
    ensures Join([w], " ") == w
  {}

  /** One step of the wrap, in terms of word positions. */
  lemma IndexStep(l: Layout, ws: seq<string>, i: nat, k: nat)
    requires i < k < |ws| && ws[i] != ""
    ensures Lines(l, ws[k..], Join(ws[i..k], " ")) ==
      if Fits(l, ws[i..k + 1]) then Lines(l, ws[k + 1..], Join(ws[i..k + 1], " "))
      else [Join(ws[i..k], " ")] + Lines(l, ws[k + 1..], Join(ws[k..k + 1], " "))
  {
    hide Width, Join, Lines;
    CandidateIsJoin(l, ws, i, k);
    LinesStep(l, ws, k, Join(ws[i..k], " "));
    assert ws[k..k + 1] == [ws[k]];
    SingleJoin(ws[k]);
  }

  lemma LastStep(l: Layout, ws: seq<string>, i: nat)
    requires i < |ws|
    ensures Lines(l, ws[|ws|..], Join(ws[i..|ws|], " ")) == [Join(ws[i..|ws|], " ")]
  {
    hide Width, Join;
    assert ws[|ws|..] == [];
  }

  /** Greedy lines stay ahead of every other split. The other split's remaining lines start at `s`,
      no later than the greedy line that is being filled with the words `i` to `k`. */
  lemma {:induction false} GreedyStaysAhead(l: Layout, ws: seq<string>, i: nat, k: nat, s: nat,
                                            groups: seq<seq<string>>)
    requires Sensible(l) && Regular(l, ws) && s <= i < k <= |ws|
    requires Flat(groups) == ws[s..] && forall g :: 0 <= g < |groups| ==> Fits(l, groups[g])
    ensures |Lines(l, ws[k..], Join(ws[i..k], " "))| <= |groups|
    decreases |ws| - k
  {
    hide Fits, Join, Sensible, Lines;
    assert groups != [];
    if k < |ws| {
      IndexStep(l, ws, i, k);
      if Fits(l, ws[i..k + 1]) {
        GreedyStaysAhead(l, ws, i, k + 1, s, groups);
      } else {
        var e := s + |groups[0]|;
        NextGroup(ws, s, groups);
        if e >= k + 1 { PartFits(l, ws, s, i, k + 1, e); }
        GreedyStaysAhead(l, ws, k, k + 1, e, groups[1..]);
      }
    } else {
      LastStep(l, ws, i);
    }
  }

  lemma NextGroup(ws: seq<string>, s: nat, groups: seq<seq<string>>)
    requires s <= |ws| && groups != [] && Flat(groups) == ws[s..]
    ensures var e := s + |groups[0]|; e <= |ws| && groups[0] == ws[s..e] && Flat(groups[1..]) == ws[e..]
  {
    assert ws[s..] == groups[0] + Flat(groups[1..]);
    var e := s + |groups[0]|;
    assert groups[0] == ws[s..][..|groups[0]|] == ws[s..e];
    assert Flat(groups[1..]) == ws[s..][|groups[0]|..] == ws[e..];
  }

  /** The words of the greedy lines, line by line. */
  function Groups(l: Layout, ws: seq<string>, i: nat, k: nat): seq<seq<string>>
    requires i <= k <= |ws|
    decreases |ws| - k
  {
    if k == |ws| then [ws[i..k]]
    else if Fits(l, ws[i..k + 1]) then Groups(l, ws, i, k + 1)
    else [ws[i..k]] + Groups(l, ws, k, k + 1)
  }

  /** Line `g` is drawn from the words of group `g`, which fit. */
  ghost predicate Spelled(l: Layout, lines: seq<string>, gs: seq<seq<string>>) {
    |lines| == |gs| && forall g :: 0 <= g < |gs| ==> gs[g] != [] && Fits(l, gs[g]) && lines[g] == Join(gs[g], " ")
  }

  /** Each drawn line is a run of consecutive words, all words appear in order, and each line fits. */
  lemma {:induction false} LinesAreGroups(l: Layout, ws: seq<string>, i: nat, k: nat)
    requires Regular(l, ws) && i < k <= |ws| && Fits(l, ws[i..k])
    ensures Flat(Groups(l, ws, i, k)) == ws[i..]
    ensures Spelled(l, Lines(l, ws[k..], Join(ws[i..k], " ")), Groups(l, ws, i, k))
    decreases |ws| - k
  {
    hide Fits, Join, Lines;
    if k < |ws| {
      IndexStep(l, ws, i, k);
      if Fits(l, ws[i..k + 1]) {
        LinesAreGroups(l, ws, i, k + 1);
      } else {
        assert ws[k..k + 1] == [ws[k]];
        LinesAreGroups(l, ws, k, k + 1);
        var rest := Groups(l, ws, k, k + 1);
        assert ([ws[i..k]] + rest)[1..] == rest;
        assert ws[i..] == ws[i..k] + ws[k..];
      }
    } else {
      LastStep(l, ws, i);
      var gs := [ws[i..k]];
      assert gs[1..] == [] && Flat(gs) == ws[i..k] + [] == ws[i..];
    }
  }

  lemma FirstWord(l: Layout, ws: seq<string>)
    requires Regular(l, ws)
    ensures Lines(l, ws, "") == Lines(l, ws[1..], Join(ws[0..1], " "))
    ensures Fits(l, ws[0..1])
  {
    assert ws[0..1] == [ws[0]];
    SingleJoin(ws[0]);
  }

  /** Greedy wrapping is right and optimal: for non-empty words that each fit, the drawn lines
      hold all words in order and each fits, and no other split of the words into fitting lines
      has fewer lines. */
  lemma GreedyIsOptimal(l: Layout, text: string, others: seq<seq<string>>)
    requires Sensible(l) && Regular(l, Words(text))
    requires Flat(others) == Words(text) && forall g :: 0 <= g < |others| ==> Fits(l, others[g])
    ensures |DrawnLines(l, text)| <= |others|
    ensures var gs := Groups(l, Words(text), 0, 1);
      Flat(gs) == Words(text) && Spelled(l, DrawnLines(l, text), gs)
  {
    hide Width, Join, Words, Sensible;
    var ws := Words(text);
    FirstWord(l, ws);
    assert ws[0..] == ws;
    GreedyStaysAhead(l, ws, 0, 1, 0, others);
    LinesAreGroups(l, ws, 0, 1);
    var gs := Groups(l, ws, 0, 1);
    LastLineNotEmpty(l, ws, gs);
  }

  lemma LastLineNotEmpty(l: Layout, ws: seq<string>, gs: seq<seq<string>>)
    requires Regular(l, ws) && Flat(gs) == ws && gs != [] && gs[|gs| - 1] != []
    ensures Join(gs[|gs| - 1], " ") != ""
  {
    hide Fits;
    var last := gs[|gs| - 1];
    FlatHasAll(gs, |gs| - 1, last[0]);
    assert last[0] in ws;
  }

  lemma {:induction false} FlatHasAll(gs: seq<seq<string>>, g: nat, w: string)
    requires g < |gs| && w in gs[g]
    ensures w in Flat(gs)
  {
    if g > 0 { FlatHasAll(gs[1..], g - 1, w); }
  }

  // ---- any text ---------------------------------------------------------------------------

  /** Splitting and joining gives the text back, and no word holds a space. */
  lemma {:induction false} WordsSpellTheText(word: string, text: string)
    requires ' ' !in word
    ensures Join(SplitFrom(word, text), " ") == word + text
    ensures SplitFrom(word, text) != [] && forall k :: 0 <= k < |SplitFrom(word, text)| ==>
      ' ' !in SplitFrom(word, text)[k]
    decreases text
  {
    if text == "" {
      assert word + text == word;
    } else if text[0] == ' ' {
      WordsSpellTheText("", text[1..]);
      assert "" + text[1..] == text[1..];
      assert word + " " + text[1..] == word + text;
    } else {
      WordsSpellTheText(word + [text[0]], text[1..]);
      assert word + [text[0]] + text[1..] == word + text;
    }
  }

  /** Whatever the words, a line that does not fit is a single word. */
  lemma {:induction false} OverlongLinesAreSingleWords(l: Layout, words: seq<string>, current: string, k: nat)
    requires k < |Lines(l, words, current)|
    requires Width(l, current) <= l.maxWidth || ' ' !in current
    requires forall n :: 0 <= n < |words| ==> ' ' !in words[n]
    ensures Width(l, Lines(l, words, current)[k]) <= l.maxWidth || ' ' !in Lines(l, words, current)[k]
  {
    hide Width;
    if words != [] {
      var candidate := Candidate(current, words[0]);
      if Width(l, candidate) <= l.maxWidth {
        OverlongLinesAreSingleWords(l, words[1..], candidate, k);
      } else if k > 0 {
        OverlongLinesAreSingleWords(l, words[1..], words[0], k - 1);
      }
    }
  }
}
