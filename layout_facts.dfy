/**
 * What the word wrap of `appendText` guarantees, proved about the
 * functions of module Layout.
 */
module LayoutFacts {
  import opened Scan
  import opened Layout

  /**
   * The runes of a word land in consecutive cells from the cursor; storage
   * only grows, and every other cell keeps its value (or is blank if new).
   */
  lemma {:induction false} PutRunesCells(g: Grid, w: string)
    requires Sane(g)
    ensures var r := PutRunes(g, w); var base := CellIndex(g, g.col, g.row);
      && |g.cells| <= |r.cells|
      && (w != [] ==> base + |w| <= |r.cells|)
      && (forall j | 0 <= j < |w| :: r.cells[base + j] == Cell(w[j], g.fg, g.bg))
      && (forall i | 0 <= i < |r.cells| && !(base <= i < base + |w|) ::
            r.cells[i] == if i < |g.cells| then g.cells[i] else Blank)
  {
    PutRunesWritesWord(g, w);
    PutRunesKeepsOthers(g, w);
  }

  /** The runes land at consecutive cells from the cursor's index. */
  lemma {:induction false} PutRunesWritesWord(g: Grid, w: string)
    requires Sane(g)
    ensures var r := PutRunes(g, w); var base := CellIndex(g, g.col, g.row);
      && |g.cells| <= |r.cells|
      && (w != [] ==> base + |w| <= |r.cells|)
      && (forall j | 0 <= j < |w| :: r.cells[base + j] == Cell(w[j], g.fg, g.bg))
    decreases |w|
  {
    if w != [] {
      var base := CellIndex(g, g.col, g.row);
      var g1 := PutCell(g, g.col, g.row, Cell(w[0], g.fg, g.bg)).(col := g.col + 1);
      assert CellIndex(g1, g1.col, g1.row) == base + 1;
      PutRunesWritesWord(g1, w[1..]);
      PutRunesKeepsOthers(g1, w[1..]);
      var r := PutRunes(g, w);
      assert r == PutRunes(g1, w[1..]);
      forall j | 0 <= j < |w|
        ensures r.cells[base + j] == Cell(w[j], g.fg, g.bg)
      {
        if j > 0 {
          assert w[1..][j - 1] == w[j];
        }
      }
    }
  }

  /** Every other cell keeps its old content, or is blank if it was grown. */
  lemma {:induction false} PutRunesKeepsOthers(g: Grid, w: string)
    requires Sane(g)
    ensures var r := PutRunes(g, w); var base := CellIndex(g, g.col, g.row);
      && |g.cells| <= |r.cells|
      && (forall i | 0 <= i < |r.cells| && !(base <= i < base + |w|) ::
            r.cells[i] == if i < |g.cells| then g.cells[i] else Blank)
    decreases |w|
  {
    if w != [] {
      var base := CellIndex(g, g.col, g.row);
      var g1 := PutCell(g, g.col, g.row, Cell(w[0], g.fg, g.bg)).(col := g.col + 1);
      assert CellIndex(g1, g1.col, g1.row) == base + 1;
      PutRunesKeepsOthers(g1, w[1..]);
      assert PutRunes(g, w) == PutRunes(g1, w[1..]);
    }
  }

  /**
   * Greedy wrap with no separator owed (the `space` flag is never set, and
   * none is owed at the margin anyway): a
   * word that fits in the rest of the row starts at the cursor; one that
   * does not starts at the margin of the next row.  Either way it is
   * written whole on one row and the cursor ends just after it.
   */
  lemma PlaceWordLaysOutWord(g: Grid, w: string)
    requires Sane(g) && (!g.space || g.col == g.lmargin)
    ensures var r := PlaceWord(g, w);
      var fits := |w| <= g.width - g.col;
      var row := if fits then g.row else g.row + 1;
      var col := if fits then g.col else g.lmargin;
      && r == g.(cells := r.cells, row := row, col := col + |w|)
      && |g.cells| <= |r.cells| && 0 <= row * g.width + col
      && (w != [] ==> row * g.width + col + |w| <= |r.cells|)
      && (forall j | 0 <= j < |w| :: r.cells[row * g.width + col + j] == Cell(w[j], g.fg, g.bg))
      && (forall i | 0 <= i < |r.cells| && !(row * g.width + col <= i < row * g.width + col + |w|) ::
            r.cells[i] == if i < |g.cells| then g.cells[i] else Blank)
  {
    PutRunesCells(WordOrigin(g, w), w);
  }

  /** Laying out text never touches width, margin, pending space or attributes, and never moves up. */
  lemma {:induction false} PlaceWordsKeepsSettings(g: Grid, ws: seq<string>)
    requires Sane(g)
    ensures var r := PlaceWords(g, ws);
      && r == g.(cells := r.cells, row := r.row, col := r.col)
      && g.row <= r.row && |g.cells| <= |r.cells|
    decreases |ws|
  {
    if ws != [] {
      PutRunesCells(WordOrigin(g, ws[0]), ws[0]);
      PlaceWordsKeepsSettings(PlaceWord(g, ws[0]), ws[1..]);
    }
  }

  lemma LayoutTextKeepsSettings(g: Grid, s: string)
    requires Sane(g)
    ensures var r := LayoutText(g, s);
      && r == g.(cells := r.cells, row := r.row, col := r.col)
      && g.row <= r.row && |g.cells| <= |r.cells|
  {
    if |s| > 0 {
      PlaceWordsKeepsSettings(if g.col < g.lmargin then g.(col := g.lmargin) else g, Words(s));
    }
  }

  /** The (column, row) at which each word of `ws` starts. */
  ghost function Origins(g: Grid, ws: seq<string>): (o: seq<(int, int)>)
    requires Sane(g)
    ensures |o| == |ws|
    decreases |ws|
  {
    if ws == [] then []
    else
      var c := WordOrigin(g, ws[0]);
      [(c.col, c.row)] + Origins(PlaceWord(g, ws[0]), ws[1..])
  }

  /** A text that is a single word is placed as that word. */
  lemma LayoutOneWord(g: Grid, w: string)
    requires Sane(g) && g.lmargin <= g.col && IsWord(w)
    ensures LayoutText(g, w) == PlaceWord(g, w)
  {
    SingleWord(w);
    var ws := Words(w);
    assert ws[0] == w && ws[1..] == [];
    assert PlaceWords(g, ws) == PlaceWords(PlaceWord(g, w), []);
  }

  /**
   * Two words separated by one space, with room for both on the cursor's
   * row, are written back to back from the cursor (no gap, since no
   * separator is owed).
   */
  lemma LayoutTwoWords(g: Grid, a: string, b: string)
    requires Sane(g) && !g.space && g.lmargin <= g.col
    requires IsWord(a) && IsWord(b) && g.col + |a| + |b| <= g.width
    ensures var r := LayoutText(g, a + [' '] + b); var base := g.row * g.width + g.col;
      && r == g.(cells := r.cells, col := g.col + |a| + |b|)
      && 0 <= base && base + |a| + |b| <= |r.cells|
      && (forall j | 0 <= j < |a| :: r.cells[base + j] == Cell(a[j], g.fg, g.bg))
      && (forall j | 0 <= j < |b| :: r.cells[base + |a| + j] == Cell(b[j], g.fg, g.bg))
  {
    TwoWords(a, b);
    var ws := Words(a + [' '] + b);
    var g1 := PlaceWord(g, a);
    assert ws[1..][0] == b && ws[1..][1..] == [];
    assert PlaceWords(g1, ws[1..]) == PlaceWords(PlaceWord(g1, b), []);
    assert LayoutText(g, a + [' '] + b) == PlaceWords(g, ws) == PlaceWords(g1, ws[1..]);
    PlaceTwoWords(g, a, b);
  }

  lemma PlaceTwoWords(g: Grid, a: string, b: string)
    requires Sane(g) && !g.space && g.lmargin <= g.col
    requires IsWord(a) && IsWord(b) && g.col + |a| + |b| <= g.width
    ensures var r := PlaceWord(PlaceWord(g, a), b); var base := g.row * g.width + g.col;
      && r == g.(cells := r.cells, col := g.col + |a| + |b|)
      && 0 <= base && base + |a| + |b| <= |r.cells|
      && (forall j | 0 <= j < |a| :: r.cells[base + j] == Cell(a[j], g.fg, g.bg))
      && (forall j | 0 <= j < |b| :: r.cells[base + |a| + j] == Cell(b[j], g.fg, g.bg))
  {
    var g1 := PlaceWord(g, a);
    var g2 := PlaceWord(g1, b);
    PlaceWordLaysOutWord(g, a);
    PlaceWordLaysOutWord(g1, b);
    var base := g.row * g.width + g.col;
    assert g1.row * g1.width + g1.col == base + |a|;
    forall j | 0 <= j < |a|
      ensures g2.cells[base + j] == Cell(a[j], g.fg, g.bg)
    {
      assert g1.cells[base + j] == Cell(a[j], g.fg, g.bg);
    }
    forall j | 0 <= j < |b|
      ensures g2.cells[base + |a| + j] == Cell(b[j], g.fg, g.bg)
    {
      assert g2.cells[g1.row * g1.width + g1.col + j] == Cell(b[j], g1.fg, g1.bg);
    }
  }

  /**
   * Wrap keeps words inside the row: if the cursor starts between the margin
   * and the width and no word is wider than the space between them, every
   * word starts at or right of the margin and ends before `width`, rows only
   * grow, and the cursor ends between the margin and the width.
   */
  lemma {:induction false} PlaceWordsStaysInside(g: Grid, ws: seq<string>)
    requires Sane(g) && g.lmargin <= g.col <= g.width
    requires forall k | 0 <= k < |ws| :: |ws[k]| <= g.width - g.lmargin
    ensures var r := PlaceWords(g, ws); var o := Origins(g, ws);
      && r.lmargin <= r.col <= r.width && g.row <= r.row
      && forall k | 0 <= k < |ws| ::
           g.lmargin <= o[k].0 && o[k].0 + |ws[k]| <= g.width && g.row <= o[k].1 <= r.row
    decreases |ws|
  {
    if ws != [] {
      var g1 := PlaceWord(g, ws[0]);
      var c := WordOrigin(g, ws[0]);
      assert c.lmargin <= c.col && c.col + |ws[0]| <= c.width;
      assert g1.col == c.col + |ws[0]| && g1.row == c.row;
      PlaceWordsStaysInside(g1, ws[1..]);
      var o := Origins(g, ws);
      forall k | 0 <= k < |ws|
        ensures g.lmargin <= o[k].0 && o[k].0 + |ws[k]| <= g.width
      {
        if k > 0 {
          assert ws[1..][k - 1] == ws[k];
          assert o[k] == Origins(g1, ws[1..])[k - 1];
        }
      }
    }
  }

  /** The same bound for a whole `appendText` call. */
  lemma LayoutTextStaysInside(g: Grid, s: string)
    requires Sane(g) && g.lmargin <= g.col <= g.width
    requires forall w | w in Words(s) :: |w| <= g.width - g.lmargin
    ensures var r := LayoutText(g, s);
      && r.lmargin <= r.col <= r.width && g.row <= r.row
      && (s != [] ==> forall k | 0 <= k < |Words(s)| ::
            var o := Origins(g, Words(s))[k];
            g.lmargin <= o.0 && o.0 + |Words(s)[k]| <= g.width)
  {
    if s != [] {
      var ws := Words(s);
      assert forall k | 0 <= k < |ws| :: ws[k] in ws;
      PlaceWordsStaysInside(g, ws);
    }
  }
}
