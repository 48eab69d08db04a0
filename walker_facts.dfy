/**
 * What the walker guarantees: its stack discipline, where its text output
 * comes from, how it stops, and what each layout directive does.
 */
module WalkerFacts {
  import opened Wrappers
  import opened Scan
  import opened Html
  import opened Layout
  import opened LayoutFacts
  import opened Walker

  // ---------------------------------------------------------------------
  // Stack discipline
  // ---------------------------------------------------------------------

  /**
   * The tokens close exactly `open` more elements than they open, never
   * close an element that is not open, and contain no error token.
   * Self-closing tags open nothing.
   */
  predicate Closes(toks: seq<Token>, open: nat)
    decreases |toks|
  {
    if toks == [] then open == 0
    else
      match toks[0]
      case StartTag(_, _) => Closes(toks[1..], open + 1)
      case EndTag(_) => open > 0 && Closes(toks[1..], open - 1)
      case Err(_) => false
      case _ => Closes(toks[1..], open)
  }

  /**
   * End tags pop whatever is on top, so tokens that close `open` elements
   * pop exactly the top `open` entries, and the walk reaches the end of the
   * input.  With `open == 0` (balanced tags) the stack ends where it began.
   */
  lemma {:induction false} ClosingTagsPopTheStack(w: Walk, toks: seq<Token>, open: nat)
    requires Sane(w.doc) && Closes(toks, open) && open <= |w.stack|
    ensures Run(w, toks).1 == Returned(None)
    ensures Run(w, toks).0.stack == w.stack[..|w.stack| - open]
    decreases |toks|
  {
    if toks != [] {
      var w1 := Step(w, toks[0]);
      match toks[0]
      case StartTag(tag, _) =>
        ClosingTagsPopTheStack(w1, toks[1..], open + 1);
        assert w1.stack[..|w1.stack| - (open + 1)] == w.stack[..|w.stack| - open];
      case EndTag(_) =>
        ClosingTagsPopTheStack(w1, toks[1..], open - 1);
        assert w1.stack[..|w1.stack| - (open - 1)] == w.stack[..|w.stack| - open];
      case SelfClosing(_, _) =>
        ClosingTagsPopTheStack(w1, toks[1..], open);
      case Text(_) =>
        ClosingTagsPopTheStack(w1, toks[1..], open);
      case Ignored =>
        ClosingTagsPopTheStack(w1, toks[1..], open);
    } else {
      assert w.stack[..|w.stack|] == w.stack;
    }
  }

  /** An end tag on an empty stack is a slice-bounds panic: nothing after it runs. */
  lemma UnmatchedEndTagPanics(w: Walk, tag: Atom, rest: seq<Token>)
    requires Sane(w.doc) && w.stack == []
    ensures Run(w, [EndTag(tag)] + rest) == (w, Panicked)
  {
  }

  // ---------------------------------------------------------------------
  // The text output
  // ---------------------------------------------------------------------

  /**
   * The text the walk keeps, computed from the tag stack alone: each text
   * token not directly inside `style`, up to the first error token or the
   * first end tag that finds the stack empty.
   */
  function KeptText(stack: seq<Atom>, toks: seq<Token>): string
    decreases |toks|
  {
    if toks == [] then []
    else
      match toks[0]
      case StartTag(tag, _) => KeptText(stack + [tag], toks[1..])
      case EndTag(_) => if stack == [] then [] else KeptText(stack[..|stack| - 1], toks[1..])
      case Text(data) => (if Hidden(stack) then [] else data) + KeptText(stack, toks[1..])
      case Err(_) => []
      case _ => KeptText(stack, toks[1..])
  }

  /**
   * The builder only ever grows by whole, unmodified text tokens: the output
   * is its initial contents followed by the kept text, whatever the layout
   * does (alt text and `hr` rules reach the surface only).
   */
  lemma {:induction false} OutputIsKeptText(w: Walk, toks: seq<Token>)
    requires Sane(w.doc)
    ensures Run(w, toks).0.text == w.text + KeptText(w.stack, toks)
    decreases |toks|
  {
    if toks != [] {
      match toks[0]
      case Err(_) =>
      case EndTag(_) =>
        if w.stack != [] {
          OutputIsKeptText(Step(w, toks[0]), toks[1..]);
        }
      case StartTag(_, _) =>
        OutputIsKeptText(Step(w, toks[0]), toks[1..]);
      case SelfClosing(_, _) =>
        OutputIsKeptText(Step(w, toks[0]), toks[1..]);
      case Text(data) =>
        OutputIsKeptText(Step(w, toks[0]), toks[1..]);
      case Ignored =>
        OutputIsKeptText(Step(w, toks[0]), toks[1..]);
    }
  }

  /** Every text token's data, in order, up to the first error token. */
  function AllText(toks: seq<Token>): string
    decreases |toks|
  {
    if toks == [] then []
    else
      match toks[0]
      case Text(data) => data + AllText(toks[1..])
      case Err(_) => []
      case _ => AllText(toks[1..])
  }

  /**
   * Without `style` elements, a walk that does not panic outputs exactly its
   * initial text followed by every text token, verbatim and in order.
   */
  lemma {:induction false} UnstyledOutputIsAllText(w: Walk, toks: seq<Token>)
    requires Sane(w.doc) && Style !in w.stack
    requires forall i | 0 <= i < |toks| :: !(toks[i].StartTag? && toks[i].tag == Style)
    requires Run(w, toks).1 != Panicked
    ensures Run(w, toks).0.text == w.text + AllText(toks)
    decreases |toks|
  {
    if toks != [] && !toks[0].Err? {
      var w1 := Step(w, toks[0]);
      assert forall i | 0 <= i < |toks[1..]| :: toks[1..][i] == toks[i + 1];
      match toks[0]
      case EndTag(_) =>
        assert Style !in w1.stack by {
          assert forall i | 0 <= i < |w1.stack| :: w1.stack[i] == w.stack[i];
        }
        UnstyledOutputIsAllText(w1, toks[1..]);
      case StartTag(tag, attrs) =>
        UnstyledOutputIsAllText(w1, toks[1..]);
      case SelfClosing(_, _) =>
        UnstyledOutputIsAllText(w1, toks[1..]);
      case Text(data) =>
        assert !Hidden(w.stack) by {
          if |w.stack| > 0 {
            assert w.stack[|w.stack| - 1] in w.stack;
          }
        }
        UnstyledOutputIsAllText(w1, toks[1..]);
      case Ignored =>
        UnstyledOutputIsAllText(w1, toks[1..]);
    }
  }

  // ---------------------------------------------------------------------
  // How a walk stops
  // ---------------------------------------------------------------------

  /**
   * An error token ends the walk: end of input returns no error, any other
   * cause is returned; the state reached so far, text included, is kept and
   * no later token is read.
   */
  lemma {:induction false} ErrorTokenEndsWalk(w: Walk, pre: seq<Token>, e: TokenError, post: seq<Token>)
    requires Sane(w.doc)
    requires forall i | 0 <= i < |pre| :: !pre[i].Err?
    requires Run(w, pre).1 == Returned(None)
    ensures Run(w, pre + [Err(e)] + post) == (Run(w, pre).0, Returned(if e == EOF then None else Some(e)))
    decreases |pre|
  {
    if pre == [] {
      assert pre + [Err(e)] + post == [Err(e)] + post;
    } else {
      var toks := pre + [Err(e)] + post;
      assert toks[0] == pre[0] && toks[1..] == pre[1..] + [Err(e)] + post;
      assert !pre[0].Err?;
      if !(pre[0].EndTag? && w.stack == []) {
        ErrorTokenEndsWalk(Step(w, pre[0]), pre[1..], e, post);
      }
    }
  }

  // ---------------------------------------------------------------------
  // Layout directives
  // ---------------------------------------------------------------------

  lemma {:induction false} ImgKeepsSettings(g: Grid, attrs: seq<Attr>)
    requires Sane(g)
    ensures var r := ImgEffect(g, attrs);
      r == g.(cells := r.cells, row := r.row, col := r.col) && g.row <= r.row && |g.cells| <= |r.cells|
    decreases |attrs|
  {
    if attrs != [] {
      var g1 := if attrs[0].key == "alt" then
        var t := LayoutText(g, AltText(attrs[0].val)); t.(row := t.row + 1, col := t.lmargin)
        else g;
      LayoutTextKeepsSettings(g, AltText(attrs[0].val));
      ImgKeepsSettings(g1, attrs[1..]);
    }
  }

  /**
   * A start tag only moves the cursor down (or keeps its row) and may draw;
   * it never changes width, margin, pending space or attributes.  Only
   * `img` and `hr` draw, and tags outside the table change nothing.
   */
  lemma StartTagOnlyMovesDown(g: Grid, tag: Atom, attrs: seq<Attr>)
    requires Sane(g)
    ensures var r := StartTagEffect(g, tag, attrs);
      && r == g.(cells := r.cells, row := r.row, col := r.col)
      && g.row <= r.row && |g.cells| <= |r.cells|
      && (tag != Img && tag != Hr ==> r.cells == g.cells)
      && (tag in {Br, H1, H2, H3, H4, H5, H6, Title, Div, Tr, P} ==> g.lmargin <= r.col)
      && (tag !in {Img, Hr, Br, H1, H2, H3, H4, H5, H6, Title, Div, Tr, P} ==> r == g)
  {
    if tag == Img {
      ImgKeepsSettings(g, attrs);
    } else if tag == Hr {
      var h := g.(row := g.row + 1, col := 0);
      assert StartTagEffect(g, tag, attrs) == LayoutText(h, Dashes(g.width));
      LayoutTextKeepsSettings(h, Dashes(g.width));
    } else {
      PlainTagMoves(g, tag, attrs);
    }
  }

  /**
   * The cursor directives of the dispatch table: `br` goes to the margin of
   * the next row, a heading, `title`, `div` or `tr` to the margin two rows
   * down, `p` two rows down and two columns in; any other tag but `img` and
   * `hr` changes nothing.
   */
  lemma PlainTagMoves(g: Grid, tag: Atom, attrs: seq<Attr>)
    requires Sane(g) && tag != Img && tag != Hr
    ensures var r := StartTagEffect(g, tag, attrs);
      && r == g.(row := r.row, col := r.col)
      && g.row <= r.row
      && (tag in {Br, H1, H2, H3, H4, H5, H6, Title, Div, Tr, P} ==> g.lmargin <= r.col)
      && (tag == Br ==> r.row == g.row + 1 && r.col == g.lmargin)
      && (tag in {H1, H2, H3, H4, H5, H6, Title, Div, Tr} ==> r.row == g.row + 2 && r.col == g.lmargin)
      && (tag == P ==> r.row == g.row + 2 && r.col == g.lmargin + 2)
      && (tag !in {Br, H1, H2, H3, H4, H5, H6, Title, Div, Tr, P} ==> r == g)
  {
  }

  /**
   * A paragraph starts two rows down and indents by two: the first word of
   * the text that follows starts at column `lmargin + 2` of that row when it
   * fits there.
   */
  lemma ParagraphIndentsFirstWord(g: Grid, attrs: seq<Attr>, s: string)
    requires Sane(g) && !g.space
    requires Words(s) != [] && |Words(s)[0]| <= g.width - g.lmargin - 2
    ensures var h := StartTagEffect(g, P, attrs);
      && h.row == g.row + 2 && h.col == g.lmargin + 2
      && Origins(h, Words(s))[0] == (g.lmargin + 2, g.row + 2)
  {
    ParagraphIndentsWords(g, attrs, Words(s));
  }

  /** The same, for any sequence of words whose first one fits. */
  lemma ParagraphIndentsWords(g: Grid, attrs: seq<Attr>, ws: seq<string>)
    requires Sane(g) && !g.space
    requires ws != [] && |ws[0]| <= g.width - g.lmargin - 2
    ensures var h := StartTagEffect(g, P, attrs);
      && h.row == g.row + 2 && h.col == g.lmargin + 2
      && Origins(h, ws)[0] == (g.lmargin + 2, g.row + 2)
  {
    var h := g.(row := g.row + 2, col := g.lmargin + 2);
    assert StartTagEffect(g, P, attrs) == h;
    FirstWordStaysPut(h, ws);
  }

  /** With no separator owed, a first word that fits starts at the cursor. */
  lemma FirstWordStaysPut(h: Grid, ws: seq<string>)
    requires Sane(h) && !h.space && ws != [] && |ws[0]| <= h.width - h.col
    ensures Origins(h, ws)[0] == (h.col, h.row)
  {
  }

  /** A row of dashes as wide as the page, laid out at the start of a row, fills exactly that row. */
  lemma DashesFillRow(h: Grid)
    requires Sane(h) && h.lmargin == 0 && h.col == 0 && 0 < h.width
    ensures var r := LayoutText(h, Dashes(h.width)); var base := h.row * h.width;
      && r == h.(cells := r.cells, col := h.width)
      && 0 <= base && base + h.width <= |r.cells|
      && (forall i | base <= i < base + h.width :: r.cells[i] == Cell('-', h.fg, h.bg))
      && (forall i | 0 <= i < |r.cells| && !(base <= i < base + h.width) ::
            r.cells[i] == if i < |h.cells| then h.cells[i] else Blank)
  {
    var d := Dashes(h.width);
    assert IsWord(d);
    LayoutOneWord(h, d);
    PlaceWordLaysOutWord(h, d);
    var r := PlaceWord(h, d);
    var base := h.row * h.width;
    forall i | base <= i < base + h.width
      ensures r.cells[i] == Cell('-', h.fg, h.bg)
    {
      assert r.cells[base + 0 + (i - base)] == Cell(d[i - base], h.fg, h.bg);
    }
  }

  /**
   * With margin 0, `hr` moves one row down and fills columns 0 to width-1 of
   * that row with '-', leaving the cursor at column `width`; no other cell
   * changes.
   */
  lemma HrDrawsRule(g: Grid, attrs: seq<Attr>)
    requires Sane(g) && g.lmargin == 0 && 0 < g.width
    ensures var r := StartTagEffect(g, Hr, attrs); var base := (g.row + 1) * g.width;
      && r == g.(cells := r.cells, row := g.row + 1, col := g.width)
      && 0 <= base && base + g.width <= |r.cells|
      && (forall i | base <= i < base + g.width :: r.cells[i] == Cell('-', g.fg, g.bg))
      && (forall i | 0 <= i < |r.cells| && !(base <= i < base + g.width) ::
            r.cells[i] == if i < |g.cells| then g.cells[i] else Blank)
  {
    DashesFillRow(g.(row := g.row + 1, col := 0));
  }

  /** Each `alt` attribute's text goes to the surface, then the row ends at the margin. */
  lemma ImgLaysOutAltText(g: Grid, v: string)
    requires Sane(g)
    ensures StartTagEffect(g, Img, [Attr("alt", v)])
         == var t := LayoutText(g, "Alt text: " + v); t.(row := t.row + 1, col := t.lmargin)
  {
    var attrs := [Attr("alt", v)];
    assert attrs[1..] == [];
    var t := LayoutText(g, AltText(v));
    var g1 := t.(row := t.row + 1, col := t.lmargin);
    assert attrs[0].key == "alt";
    assert ImgEffect(g, attrs) == ImgEffect(g1, attrs[1..]);
    assert ImgEffect(g1, []) == g1;
  }

  /** The `alt` attributes of `attrs`, in order. */
  function AltAttrs(attrs: seq<Attr>): seq<Attr>
  {
    if attrs == [] then []
    else (if attrs[0].key == "alt" then [attrs[0]] else []) + AltAttrs(attrs[1..])
  }

  /** Only `alt` attributes have an effect; `src` and all others are ignored. */
  lemma {:induction false} ImgReadsOnlyAlt(g: Grid, attrs: seq<Attr>)
    requires Sane(g)
    ensures ImgEffect(g, attrs) == ImgEffect(g, AltAttrs(attrs))
    decreases |attrs|
  {
    if attrs != [] {
      var rest := AltAttrs(attrs[1..]);
      if attrs[0].key == "alt" {
        var g1 := AltLine(g, attrs[0].val);
        ImgReadsOnlyAlt(g1, attrs[1..]);
        assert ImgEffect(g, attrs) == ImgEffect(g1, attrs[1..]);
        var alts := [attrs[0]] + rest;
        assert AltAttrs(attrs) == alts;
        assert alts[0] == attrs[0] && alts[1..] == rest;
        assert ImgEffect(g, alts) == ImgEffect(g1, rest);
      } else {
        ImgReadsOnlyAlt(g, attrs[1..]);
        assert ImgEffect(g, attrs) == ImgEffect(g, attrs[1..]);
        assert AltAttrs(attrs) == rest;
      }
    }
  }

  /** An `alt` value reaches the surface as the words "Alt", "text:" and then the value's own words. */
  lemma AltTextWords(v: string)
    ensures Words(AltText(v)) == ["Alt", "text:"] + Words(v)
  {
    assert AltText(v) == "Alt" + [' '] + ("text:" + [' '] + v);
    WordsAfterTwoWords("Alt", "text:", v);
  }

  // ---------------------------------------------------------------------
  // A whole walk
  // ---------------------------------------------------------------------

  /**
   * `<p>a b</p>` for two words that fit on a page row: the output is the
   * text, the stack ends empty, and on row 2 the first word starts at column
   * 2 with the second right after it (no gap: the `space` flag is never set).
   */
  lemma ParagraphOfTwoWords(a: string, b: string)
    requires IsWord(a) && IsWord(b) && 2 + |a| + |b| <= PageWidth
    ensures var (w, o) := Run(Walk([], "", NewGrid), [StartTag(P, []), Text(a + [' '] + b), EndTag(P), Err(EOF)]);
      var base := 2 * PageWidth + 2;
      && o == Returned(None) && w.text == a + [' '] + b && w.stack == []
      && w.doc.row == 2 && w.doc.col == 2 + |a| + |b| && base + |a| + |b| <= |w.doc.cells|
      && (forall j | 0 <= j < |a| :: w.doc.cells[base + j] == Cell(a[j], ColorDefault, ColorDefault))
      && (forall j | 0 <= j < |b| :: w.doc.cells[base + |a| + j] == Cell(b[j], ColorDefault, ColorDefault))
  {
    var s := a + [' '] + b;
    var toks := [StartTag(P, []), Text(s), EndTag(P), Err(EOF)];
    var w0 := Walk([], "", NewGrid);
    var g1 := NewGrid.(row := 2, col := 2);
    var w1 := Walk([P], "", g1);
    assert Step(w0, toks[0]) == w1;
    assert StyleOf([P]) == ColorDefault by {
      assert [P][..0] == [];
    }
    LayoutTwoWords(g1, a, b);
    var g2 := LayoutText(g1, s);
    var w2 := Walk([P], s, g2);
    assert Step(w1, toks[1]) == w2;
    var w3 := Walk([], s, g2);
    assert Step(w2, toks[2]) == w3;
    assert toks[1..][1..][1..] == [EndTag(P), Err(EOF)][1..];
    assert Run(w0, toks) == Run(w1, toks[1..]);
    assert Run(w1, toks[1..]) == Run(w2, toks[2..]);
    assert Run(w2, toks[2..]) == Run(w3, toks[3..]);
    assert Run(w3, toks[3..]) == (w3, Returned(None));
  }

  /** `<p>Hello world</p>`: "Hello" takes columns 2 to 6 of row 2 and "world" columns 7 to 11. */
  lemma HelloWorld()
    ensures var (w, o) := Run(Walk([], "", NewGrid), [StartTag(P, []), Text("Hello world"), EndTag(P), Err(EOF)]);
      var base := 2 * PageWidth;
      && o == Returned(None) && w.text == "Hello world" && w.stack == []
      && w.doc.row == 2 && w.doc.col == 12 && base + 12 <= |w.doc.cells|
      && (forall j | 0 <= j < 5 :: w.doc.cells[base + 2 + j] == Cell("Hello"[j], ColorDefault, ColorDefault))
      && (forall j | 0 <= j < 5 :: w.doc.cells[base + 7 + j] == Cell("world"[j], ColorDefault, ColorDefault))
  {
    var a, b := "Hello", "world";
    assert IsWord(a) && IsWord(b);
    assert "Hello world" == a + [' '] + b;
    ParagraphOfTwoWords(a, b);
  }
}
