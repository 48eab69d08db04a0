/**
 * The tokenizing walker (`parser` in cmd/smashwords-downloader/main.go; the
 * exported `Parser` in epubParse.go is the same code): it keeps a stack of
 * open element atoms, hands layout directives and text to the surface, and
 * accumulates the raw text of every displayable text token.
 *
 * The value `Walk` and the function `Run` specify the class `Parser`.
 */
module Walker {
  import opened Wrappers
  import opened Html
  import opened Layout
  import LayoutFacts

  /** What `fmt.Sprintf("Alt text: %s", v)` produces. */
  function AltText(v: string): string
  {
    "Alt text: " + v
  }

  /** `strings.Repeat("-", n)`: the rule an `hr` draws. */
  function Dashes(n: nat): (s: string)
    ensures |s| == n && forall i | 0 <= i < n :: s[i] == '-'
  {
    seq(n, _ => '-')
  }

  /** One `alt` attribute: its text is laid out and the row is ended. */
  function AltLine(g: Grid, v: string): (r: Grid)
    requires Sane(g)
    ensures Sane(r) && r.col == r.lmargin
    ensures r.width == g.width && r.lmargin == g.lmargin && r.fg == g.fg && r.bg == g.bg
    ensures g.row < r.row && |g.cells| <= |r.cells|
  {
    var t := LayoutText(g, AltText(v));
    LayoutFacts.LayoutTextKeepsSettings(g, AltText(v));
    t.(row := t.row + 1, col := t.lmargin)
  }

  /** The `img` case: each `alt` attribute, in order, lays out its text and ends the row. */
  function ImgEffect(g: Grid, attrs: seq<Attr>): (r: Grid)
    requires Sane(g)
    ensures Sane(r)
    decreases |attrs|
  {
    if attrs == [] then g
    else
      // a `src` attribute only scans the manifest, to no effect
      var g1 := if attrs[0].key == "alt" then AltLine(g, attrs[0].val) else g;
      ImgEffect(g1, attrs[1..])
  }

  /** The dispatch table of `handleStartTag`. */
  function StartTagEffect(g: Grid, tag: Atom, attrs: seq<Attr>): (r: Grid)
    requires Sane(g)
    ensures Sane(r)
  {
    match tag
    case Img => ImgEffect(g, attrs)
    case Br => g.(row := g.row + 1, col := g.lmargin)
    case H1 | H2 | H3 | H4 | H5 | H6 | Title | Div | Tr => g.(row := g.row + 2, col := g.lmargin)
    case P => g.(row := g.row + 2, col := g.lmargin + 2)
    case Hr => LayoutText(g.(row := g.row + 1, col := 0), Dashes(g.width))
    case _ => g
  }

  /** The walker's state: the tag stack, the text builder and the surface. */
  datatype Walk = Walk(stack: seq<Atom>, text: string, doc: Grid)

  /** How a walk ends: `parse` returns (nil or a tokenizer error), or the process panics. */
  datatype Outcome = Returned(err: Option<TokenError>) | Panicked

  /** Text directly inside a `style` element is not displayed. */
  predicate Hidden(stack: seq<Atom>)
  {
    |stack| > 0 && stack[|stack| - 1] == Style
  }

  /** `handleText`: unless hidden, restyle, lay the text out and append it verbatim. */
  function TextStep(w: Walk, data: string): (r: Walk)
    requires Sane(w.doc)
    ensures Sane(r.doc)
  {
    if Hidden(w.stack) then w
    else w.(doc := LayoutText(w.doc.(fg := StyleOf(w.stack)), data), text := w.text + data)
  }

  /** One pass of `parse`'s loop for a token that does not end the walk. */
  function Step(w: Walk, t: Token): (r: Walk)
    requires Sane(w.doc) && !t.Err? && !(t.EndTag? && w.stack == [])
    ensures Sane(r.doc)
  {
    match t
    case StartTag(tag, attrs) => w.(stack := w.stack + [tag], doc := StartTagEffect(w.doc, tag, attrs))
    case SelfClosing(tag, attrs) => w.(doc := StartTagEffect(w.doc, tag, attrs))
    case EndTag(_) => w.(stack := w.stack[..|w.stack| - 1])
    case Text(data) => TextStep(w, data)
    case Ignored => w
  }

  /**
   * `parse` over the tokens the tokenizer yields: it stops at the first
   * error token (end of input included), or panics on an end tag that finds
   * the stack empty.
   */
  function Run(w: Walk, toks: seq<Token>): (Walk, Outcome)
    requires Sane(w.doc)
    decreases |toks|
  {
    if toks == [] then (w, Returned(None))
    else
      match toks[0]
      case Err(e) => (w, Returned(if e == EOF then None else Some(e)))
      case EndTag(_) => if w.stack == [] then (w, Panicked) else Run(Step(w, toks[0]), toks[1..])
      case _ => Run(Step(w, toks[0]), toks[1..])
  }

  class Parser {
    var tagStack: seq<Atom>
    const tokenizer: seq<Token>
    const doc: Cellbuf
    /** The manifest hrefs; only the no-op `src` scan would read them. */
    const items: seq<string>
    var sb: string

    ghost predicate Valid()
      reads this, doc
    {
      doc.Valid()
    }

    function Snapshot(): Walk
      reads this, doc
    {
      Walk(tagStack, sb, doc.State())
    }

    constructor (tokens: seq<Token>, manifest: seq<string>, builder: string)
      ensures Valid() && fresh(doc)
      ensures Snapshot() == Walk([], builder, NewGrid)
      ensures tokenizer == tokens && items == manifest
    {
      tagStack := [];
      tokenizer := tokens;
      doc := new Cellbuf();
      items := manifest;
      sb := builder;
    }

    /** `handleStartTag`: only the surface changes; stack and text are out of its frame. */
    method HandleStartTag(tag: Atom, attrs: seq<Attr>)
      requires Valid()
      modifies doc
      ensures Valid()
      ensures doc.State() == StartTagEffect(old(doc.State()), tag, attrs)
    {
      match tag {
        case Img =>
          HandleImg(attrs);
        case Br =>
          doc.row := doc.row + 1;
          doc.col := doc.lmargin;
        case H1 | H2 | H3 | H4 | H5 | H6 | Title | Div | Tr =>
          doc.row := doc.row + 2;
          doc.col := doc.lmargin;
        case P =>
          doc.row := doc.row + 2;
          doc.col := doc.lmargin;
          doc.col := doc.col + 2;
        case Hr =>
          HandleHr();
        case _ =>
      }
    }

    /** The `hr` case of `handleStartTag`: a rule of dashes on the next row. */
    method HandleHr()
      requires Valid()
      modifies doc
      ensures Valid()
      ensures doc.State() == StartTagEffect(old(doc.State()), Hr, [])
    {
      ghost var g := doc.State();
      ghost var h := g.(row := g.row + 1, col := 0);
      assert StartTagEffect(g, Hr, []) == LayoutText(h, Dashes(g.width));
      doc.row := doc.row + 1;
      doc.col := 0;
      assert doc.State() == h;
      doc.AppendText(Dashes(doc.width));
    }

    /** The `img` case of `handleStartTag`: the loop over the attributes. */
    method HandleImg(attrs: seq<Attr>)
      requires Valid()
      modifies doc
      ensures Valid()
      ensures doc.State() == ImgEffect(old(doc.State()), attrs)
    {
      for k := 0 to |attrs|
        invariant doc.Valid()
        invariant ImgEffect(doc.State(), attrs[k..]) == ImgEffect(old(doc.State()), attrs)
      {
        assert attrs[k..][1..] == attrs[k + 1..];
        var a := attrs[k];
        if a.key == "alt" {
          HandleAlt(a.val);
        }
        // a `src` attribute only scans the manifest, to no effect
      }
    }

    /** The `alt` branch of the attribute loop. */
    method HandleAlt(v: string)
      requires Valid()
      modifies doc
      ensures Valid()
      ensures doc.State() == AltLine(old(doc.State()), v)
    {
      doc.AppendText(AltText(v));
      doc.row := doc.row + 1;
      doc.col := doc.lmargin;
    }

    /** `handleText`. */
    method HandleText(data: string)
      requires Valid()
      modifies this, doc
      ensures Valid()
      ensures Snapshot() == TextStep(old(Snapshot()), data)
    {
      if |tagStack| > 0 && tagStack[|tagStack| - 1] == Style {
        return;
      }
      doc.Style(tagStack);
      doc.AppendText(data);
      sb := sb + data;
    }

    /** `parse`: the token loop. */
    method Parse() returns (outcome: Outcome)
      requires Valid()
      modifies this, doc
      ensures Valid()
      ensures (Snapshot(), outcome) == Run(old(Snapshot()), tokenizer)
    {
      var i := 0;
      while i < |tokenizer|
        invariant 0 <= i <= |tokenizer| && Valid()
        invariant Run(Snapshot(), tokenizer[i..]) == Run(old(Snapshot()), tokenizer)
      {
        var token := tokenizer[i];
        assert tokenizer[i..][0] == token && tokenizer[i..][1..] == tokenizer[i + 1..];
        match token {
          case Err(e) =>
            return Returned(if e == EOF then None else Some(e));
          case StartTag(tag, attrs) =>
            tagStack := tagStack + [tag];
            HandleStartTag(tag, attrs);
          case SelfClosing(tag, attrs) =>
            HandleStartTag(tag, attrs);
          case Text(data) =>
            HandleText(data);
          case EndTag(_) =>
            if |tagStack| == 0 {
              return Panicked;
            }
            tagStack := tagStack[..|tagStack| - 1];
          case Ignored =>
        }
        i := i + 1;
      }
      return Returned(None);
    }
  }

  /**
   * `parseText`: walk one chapter starting from a fresh surface and the
   * caller's builder contents; the text gathered so far is returned together
   * with the outcome.
   */
  method ParseText(tokens: seq<Token>, items: seq<string>, sb: string) returns (text: string, outcome: Outcome)
    ensures (text, outcome) == (Run(Walk([], sb, NewGrid), tokens).0.text, Run(Walk([], sb, NewGrid), tokens).1)
  {
    var p := new Parser(tokens, items, sb);
    outcome := p.Parse();
    text := p.sb;
  }
}
