/**
 * The layout surface (`cellbuf` in cmd/smashwords-downloader/main.go, the
 * exported `Cellbuf` in epubParse.go is the same code): a character grid
 * addressed as a flat slice by `row * width + col`, a cursor, and the
 * current display attributes.
 *
 * The value `Grid` and the functions over it specify the class `Cellbuf`,
 * whose methods update the fields in place as the Go code does.
 */
module Layout {
  import opened Html
  import opened Scan

  /** The termbox attribute bits the style resolver ORs together. */
  datatype Flag = AttrBold | ColorYellow | ColorRed | ColorMagenta | ColorBlue | ColorCyan

  /** A termbox attribute, seen as the set of bits that are on. */
  type Attribute = set<Flag>

  const ColorDefault: Attribute := {}

  datatype Cell = Cell(ch: char, fg: Attribute, bg: Attribute)

  /** The zero `termbox.Cell` that fills freshly grown storage. */
  const Blank: Cell := Cell('\0', ColorDefault, ColorDefault)

  /** `setCell` grows the slice by this many cells at a time. */
  const ChunkSize: nat := 1024

  /** The width every walk starts with (`cellbuf{width: 80}`). */
  const PageWidth: int := 80

  datatype Grid = Grid(
    cells: seq<Cell>,
    width: int,
    lmargin: int,
    col: int,
    row: int,
    space: bool,
    fg: Attribute,
    bg: Attribute)

  /** What keeps every cell index `row * width + col` non-negative. */
  predicate Sane(g: Grid)
  {
    0 <= g.width && 0 <= g.lmargin && 0 <= g.col && 0 <= g.row
  }

  /** The surface a walk starts from. */
  const NewGrid: Grid := Grid([], PageWidth, 0, 0, 0, false, ColorDefault, ColorDefault)

  function CellIndex(g: Grid, x: int, y: int): (i: nat)
    requires Sane(g) && 0 <= x && 0 <= y
  {
    MulNonNegative(y, g.width);
    y * g.width + x
  }

  lemma MulNonNegative(a: int, b: int)
    requires 0 <= a && 0 <= b
    ensures 0 <= a * b
  {
  }

  // ---------------------------------------------------------------------
  // Style resolver
  // ---------------------------------------------------------------------

  /** The bit one stack entry contributes to the foreground attribute. */
  function FlagsOf(tag: Atom): Attribute
  {
    match tag
    case B | Strong | Em => {AttrBold}
    case I => {ColorYellow}
    case Title => {ColorRed}
    case H1 => {ColorMagenta}
    case H2 => {ColorBlue}
    case H3 | H4 | H5 | H6 => {ColorCyan}
    case _ => ColorDefault
  }

  /** The foreground `style` computes for a tag stack, folding left to right. */
  function StyleOf(tags: seq<Atom>): Attribute
  {
    if tags == [] then ColorDefault
    else StyleOf(tags[..|tags| - 1]) + FlagsOf(tags[|tags| - 1])
  }

  /** A bit is on exactly when some stack entry contributes it. */
  lemma {:induction false} StyleIsUnionOfEntries(tags: seq<Atom>, f: Flag)
    ensures f in StyleOf(tags) <==> exists i | 0 <= i < |tags| :: f in FlagsOf(tags[i])
  {
    if tags != [] {
      var init := tags[..|tags| - 1];
      StyleIsUnionOfEntries(init, f);
      if f in StyleOf(init) {
        var i :| 0 <= i < |init| && f in FlagsOf(init[i]);
        assert tags[i] == init[i];
      }
      if exists i | 0 <= i < |tags| :: f in FlagsOf(tags[i]) {
        var i :| 0 <= i < |tags| && f in FlagsOf(tags[i]);
        if i < |init| {
          assert init[i] == tags[i];
        }
      }
    }
  }

  /**
   * The resolved attribute depends only on which tags are on the stack: not
   * on their order, nor on how often each occurs.
   */
  lemma StyleIgnoresOrderAndRepetition(a: seq<Atom>, b: seq<Atom>)
    requires forall t :: t in a <==> t in b
    ensures StyleOf(a) == StyleOf(b)
  {
    forall f: Flag
      ensures f in StyleOf(a) <==> f in StyleOf(b)
    {
      StyleIsUnionOfEntries(a, f);
      StyleIsUnionOfEntries(b, f);
      if exists i | 0 <= i < |a| :: f in FlagsOf(a[i]) {
        var i :| 0 <= i < |a| && f in FlagsOf(a[i]);
        assert a[i] in b;
        var j :| 0 <= j < |b| && b[j] == a[i];
      }
      if exists j | 0 <= j < |b| :: f in FlagsOf(b[j]) {
        var j :| 0 <= j < |b| && f in FlagsOf(b[j]);
        assert b[j] in a;
        var i :| 0 <= i < |a| && a[i] == b[j];
      }
    }
  }

  /** Nested flags add up: `<h1><b>` is both magenta and bold. */
  lemma HeadingAndBoldCombine()
    ensures StyleOf([H1, B]) == {ColorMagenta, AttrBold}
  {
    assert [H1, B][..1] == [H1];
    assert [H1][..0] == [];
  }

  // ---------------------------------------------------------------------
  // Cell storage
  // ---------------------------------------------------------------------

  /** The storage `setCell`'s loop ends with: whole chunks until `index` fits. */
  function Grow(cells: seq<Cell>, index: nat): (r: seq<Cell>)
    ensures index < |r|
    ensures |cells| <= |r| && (|r| - |cells|) % ChunkSize == 0
    ensures |r| == |cells| || |r| - ChunkSize <= index
    ensures forall i | 0 <= i < |cells| :: r[i] == cells[i]
    ensures forall i | |cells| <= i < |r| :: r[i] == Blank
    decreases if index < |cells| then 0 else index - |cells| + 1
  {
    if index < |cells| then cells
    else Grow(cells + seq(ChunkSize, _ => Blank), index)
  }

  /** `setCell(x, y, ...)`: grow, then store `c` at `y * width + x`. */
  function PutCell(g: Grid, x: int, y: int, c: Cell): (r: Grid)
    requires Sane(g) && 0 <= x && 0 <= y
    ensures Sane(r) && r == g.(cells := r.cells)
    ensures var i := CellIndex(g, x, y);
      && |g.cells| <= |r.cells| && i < |r.cells|
      && r.cells[i] == c
      && forall j | 0 <= j < |r.cells| && j != i ::
           r.cells[j] == if j < |g.cells| then g.cells[j] else Blank
  {
    var i := CellIndex(g, x, y);
    g.(cells := Grow(g.cells, i)[i := c])
  }

  // ---------------------------------------------------------------------
  // Word wrap
  // ---------------------------------------------------------------------

  /** Put the runes of `w` at consecutive columns from the cursor. */
  function PutRunes(g: Grid, w: string): (r: Grid)
    requires Sane(g)
    ensures Sane(r) && r == g.(cells := r.cells, col := g.col + |w|)
    decreases |w|
  {
    if w == [] then g
    else PutRunes(PutCell(g, g.col, g.row, Cell(w[0], g.fg, g.bg)).(col := g.col + 1), w[1..])
  }

  /**
   * The cursor a word starts at: one column on if a separator is owed, then
   * to the start of the next row if the word does not fit.
   */
  function WordOrigin(g: Grid, w: string): (r: Grid)
    requires Sane(g)
    ensures Sane(r) && r == g.(row := r.row, col := r.col)
  {
    var g1 := if g.col != g.lmargin && g.space then g.(col := g.col + 1) else g;
    if |w| > g1.width - g1.col then g1.(row := g1.row + 1, col := g1.lmargin) else g1
  }

  function PlaceWord(g: Grid, w: string): (r: Grid)
    requires Sane(g)
    ensures Sane(r)
  {
    PutRunes(WordOrigin(g, w), w)
  }

  function PlaceWords(g: Grid, ws: seq<string>): (r: Grid)
    requires Sane(g)
    ensures Sane(r)
    decreases |ws|
  {
    if ws == [] then g else PlaceWords(PlaceWord(g, ws[0]), ws[1..])
  }

  /** `appendText(str)`: snap the cursor to the margin, then place each word. */
  function LayoutText(g: Grid, s: string): (r: Grid)
    requires Sane(g)
    ensures Sane(r)
    ensures s == [] ==> r == g
  {
    if |s| <= 0 then g
    else PlaceWords(if g.col < g.lmargin then g.(col := g.lmargin) else g, Words(s))
  }

  // ---------------------------------------------------------------------
  // The class the Go code updates in place
  // ---------------------------------------------------------------------

  class Cellbuf {
    var cells: seq<Cell>
    var width: int
    var lmargin: int
    var col: int
    var row: int
    var space: bool
    var fg: Attribute
    var bg: Attribute

    function State(): Grid
      reads this
    {
      Grid(cells, width, lmargin, col, row, space, fg, bg)
    }

    ghost predicate Valid()
      reads this
    {
      Sane(State())
    }

    /** `cellbuf{width: 80}`: every other field is Go's zero value. */
    constructor ()
      ensures Valid() && State() == NewGrid
    {
      cells, width, lmargin, col, row := [], PageWidth, 0, 0, 0;
      space, fg, bg := false, ColorDefault, ColorDefault;
    }

    /** `style(tags)`: recompute the foreground from the whole stack. */
    method Style(tags: seq<Atom>)
      requires Valid()
      modifies this
      ensures Valid()
      ensures State() == old(State()).(fg := StyleOf(tags))
    {
      var f := ColorDefault;
      for i := 0 to |tags|
        invariant f == StyleOf(tags[..i])
      {
        match tags[i] {
          case B | Strong | Em => f := f + {AttrBold};
          case I => f := f + {ColorYellow};
          case Title => f := f + {ColorRed};
          case H1 => f := f + {ColorMagenta};
          case H2 => f := f + {ColorBlue};
          case H3 | H4 | H5 | H6 => f := f + {ColorCyan};
          case _ =>
        }
        assert tags[..i + 1][..i] == tags[..i];
      }
      assert tags[..|tags|] == tags;
      fg := f;
    }

    /** `setCell(x, y, ch, fg, bg)`: grow in 1024-cell steps, then write. */
    method SetCell(x: int, y: int, ch: char, cfg: Attribute, cbg: Attribute)
      requires Valid() && 0 <= x && 0 <= y
      modifies this
      ensures Valid()
      ensures State() == PutCell(old(State()), x, y, Cell(ch, cfg, cbg))
    {
      ghost var index := CellIndex(State(), x, y);
      while y * width + x >= |cells|
        invariant State() == old(State()).(cells := cells)
        invariant Grow(cells, index) == Grow(old(cells), index)
        decreases y * width + x - |cells|
      {
        cells := cells + seq(ChunkSize, _ => Blank);
      }
      cells := cells[y * width + x := Cell(ch, cfg, cbg)];
    }

    /** `appendText(str)`: greedy word wrap of `str` from the cursor. */
    method AppendText(str: string)
      requires Valid()
      modifies this
      ensures Valid()
      ensures State() == LayoutText(old(State()), str)
    {
      if |str| <= 0 {
        return;
      }
      if col < lmargin {
        col := lmargin;
      }
      var words := Words(str);
      ghost var start := State();
      for k := 0 to |words|
        invariant Valid()
        invariant PlaceWords(State(), words[k..]) == PlaceWords(start, words)
      {
        assert words[k..][1..] == words[k + 1..];
        var word := words[k];
        MoveToOrigin(word);
        PutWord(word);
      }
    }

    /** The head of `appendText`'s word loop: owed separator, then wrap. */
    method MoveToOrigin(word: string)
      requires Valid()
      modifies this
      ensures Valid()
      ensures State() == WordOrigin(old(State()), word)
    {
      if col != lmargin && space {
        col := col + 1;
      }
      if |word| > width - col {
        row := row + 1;
        col := lmargin;
      }
    }

    /** The inner loop of `appendText`: one `setCell` per rune, `col++` after each. */
    method PutWord(word: string)
      requires Valid()
      modifies this
      ensures Valid()
      ensures State() == PutRunes(old(State()), word)
    {
      for j := 0 to |word|
        invariant Valid()
        invariant PutRunes(State(), word[j..]) == PutRunes(old(State()), word)
      {
        assert word[j..][1..] == word[j + 1..];
        SetCell(col, row, word[j], fg, bg);
        col := col + 1;
      }
    }
  }
}
