/**
 * `epub2txt.convert`: read the container, the package document and the NCX
 * through the three parsers, then write one block of text per outline
 * entry.  The archive is seen through two functions: `xmlOf(path)` is the
 * handler-call sequence expat produces for an entry, `chapterOf(path)` the
 * `html2text` conversion of an entry; `None` is a missing entry, which
 * `ZipFile.read` reports as a KeyError.
 */
module Epub2Txt {
  import opened Wrappers
  import opened Xml
  import opened Paths
  import Container
  import Book
  import Toc

  const ContainerPath := "META-INF/container.xml"

  predicate IsDigit(c: char)
  {
    '0' <= c <= '9'
  }

  function DigitChar(d: nat): (c: char)
    requires d < 10
    ensures IsDigit(c) && c as int - '0' as int == d
  {
    ('0' as int + d) as char
  }

  /** `"%d" % n` for a natural number. */
  function Decimal(n: nat): (s: string)
    ensures s != [] && forall i | 0 <= i < |s| :: IsDigit(s[i])
    ensures s[0] == '0' ==> n == 0
    decreases n
  {
    if n < 10 then [DigitChar(n)] else Decimal(n / 10) + [DigitChar(n % 10)]
  }

  /** The number a string of decimal digits spells. */
  function DecimalValue(s: string): nat
    requires forall i | 0 <= i < |s| :: IsDigit(s[i])
  {
    if s == [] then 0
    else
      assert IsDigit(s[|s| - 1]);
      DecimalValue(s[..|s| - 1]) * 10 + (s[|s| - 1] as int - '0' as int)
  }

  /** The level number written after "{{{" reads back as the number written. */
  lemma {:induction false} DecimalRoundTrip(n: nat)
    ensures DecimalValue(Decimal(n)) == n
    decreases n
  {
    if n >= 10 {
      DecimalRoundTrip(n / 10);
      var s := Decimal(n);
      assert s[..|s| - 1] == Decimal(n / 10);
    }
  }

  /** `"*" * n`. */
  function Stars(n: nat): (s: string)
    ensures |s| == n && forall i | 0 <= i < n :: s[i] == '*'
  {
    seq(n, _ => '*')
  }

  /**
   * The three strings appended for one outline entry, or what is raised on
   * the way: `t.content.split` on `None`, the archive read, `str + None`.
   */
  function EntryPieces(np: Toc.NavPoint, ops: string, chapterOf: string -> Option<string>): (r: Result<seq<string>, PyError>)
    ensures r.Success? <==> np.content.Some? && chapterOf(ops + ChapterPath(np.content.value)).Some? && np.text.Some?
    ensures r.Success? ==> |r.value| == 3
    ensures np.content.None? ==> r == Failure(AttributeError)
    ensures np.content.Some? && chapterOf(ops + ChapterPath(np.content.value)).None?
      ==> r == Failure(KeyError(ops + ChapterPath(np.content.value)))
    ensures np.content.Some? && chapterOf(ops + ChapterPath(np.content.value)).Some? && np.text.None?
      ==> r == Failure(TypeError)
  {
    match np.content
    case None => Failure(AttributeError)
    case Some(c) =>
      var path := ops + ChapterPath(c);
      match chapterOf(path)
      case None => Failure(KeyError(path))
      case Some(text) =>
        match np.text
        case None => Failure(TypeError)
        case Some(t) =>
          Success([Stars(np.level + 1) + " " + t + "\n", t + "{{{" + Decimal(np.level + 1) + "\n", text + "\n"])
  }

  /** The `content` list after the loop over `toc`, or the first exception. */
  function Pieces(toc: seq<Toc.NavPoint>, ops: string, chapterOf: string -> Option<string>): Result<seq<string>, PyError>
  {
    if toc == [] then Success([])
    else
      match Pieces(toc[..|toc| - 1], ops, chapterOf)
      case Failure(e) => Failure(e)
      case Success(front) =>
        match EntryPieces(toc[|toc| - 1], ops, chapterOf)
        case Failure(e) => Failure(e)
        case Success(last) => Success(front + last)
  }

  /** `''.join(parts)`. */
  function Flatten(parts: seq<string>): string
  {
    if parts == [] then "" else Flatten(parts[..|parts| - 1]) + parts[|parts| - 1]
  }

  /** `ZipFile.read(path)` as handler calls, or KeyError. */
  function ReadXml(xmlOf: string -> Option<seq<Event>>, path: string): (r: Result<seq<Event>, PyError>)
    ensures r.Failure? <==> xmlOf(path).None?
    ensures r.Failure? ==> r.error == KeyError(path)
  {
    match xmlOf(path)
    case None => Failure(KeyError(path))
    case Some(events) => Success(events)
  }

  /** The first half of `convert`: the `ops` directory, the title and the outline. */
  function Locate(xmlOf: string -> Option<seq<Event>>, unquote: string -> string): Result<(string, string, seq<Toc.NavPoint>), PyError>
  {
    match ReadXml(xmlOf, ContainerPath)
    case Failure(e) => Failure(e)
    case Success(cevents) =>
      match Container.ParseContainer(cevents)
      case Failure(e) => Failure(e)
      case Success(rootfile) =>
        match ReadXml(xmlOf, rootfile)
        case Failure(e) => Failure(e)
        case Success(bevents) =>
          match Book.ParseBook(bevents)
          case Failure(e) => Failure(e)
          case Success(meta) =>
            var ops := Ops(rootfile);
            match ReadXml(xmlOf, ops + meta.2)
            case Failure(e) => Failure(e)
            case Success(tevents) =>
              match Toc.ParseToc(tevents, unquote)
              case Failure(e) => Failure(e)
              case Success(toc) => Success((ops, meta.0, toc))
  }

  /** `epub2txt(epub).convert()`: the joined text and the title. */
  function ConvertSpec(xmlOf: string -> Option<seq<Event>>, chapterOf: string -> Option<string>, unquote: string -> string): Result<(string, string), PyError>
  {
    match Locate(xmlOf, unquote)
    case Failure(e) => Failure(e)
    case Success(found) =>
      match Pieces(found.2, found.0, chapterOf)
      case Failure(e) => Failure(e)
      case Success(content) => Success((Flatten(content), found.1))
  }

  /** `convert` as the Python writes it: the three parsers, then a loop appending to `content`. */
  method Convert(xmlOf: string -> Option<seq<Event>>, chapterOf: string -> Option<string>, unquote: string -> string)
    returns (r: Result<(string, string), PyError>)
    ensures r == ConvertSpec(xmlOf, chapterOf, unquote)
  {
    var cevents := ReadXml(xmlOf, ContainerPath);
    if cevents.Failure? {
      return Failure(cevents.error);
    }
    var cparser := new Container.ContainerParser(cevents.value);
    var rootfile := cparser.Parse();
    if rootfile.Failure? {
      return Failure(rootfile.error);
    }
    var bevents := ReadXml(xmlOf, rootfile.value);
    if bevents.Failure? {
      return Failure(bevents.error);
    }
    var bparser := new Book.BookParser(bevents.value);
    var meta := bparser.Parse();
    if meta.Failure? {
      return Failure(meta.error);
    }
    var ops := Ops(rootfile.value);
    var tevents := ReadXml(xmlOf, ops + meta.value.2);
    if tevents.Failure? {
      return Failure(tevents.error);
    }
    var tparser := new Toc.TocParser(tevents.value, unquote);
    var toc := tparser.Parse();
    if toc.Failure? {
      return Failure(toc.error);
    }
    assert Locate(xmlOf, unquote) == Success((ops, meta.value.0, toc.value));
    var content := AssembleEntries(toc.value, ops, chapterOf);
    if content.Failure? {
      return Failure(content.error);
    }
    return Success((content.value, meta.value.0));
  }

  /** The loop over `toc`: three strings per entry, joined at the end. */
  method AssembleEntries(toc: seq<Toc.NavPoint>, ops: string, chapterOf: string -> Option<string>)
    returns (r: Result<string, PyError>)
    ensures r.Success? <==> Pieces(toc, ops, chapterOf).Success?
    ensures r.Success? ==> r.value == Flatten(Pieces(toc, ops, chapterOf).value)
    ensures r.Failure? ==> r.error == Pieces(toc, ops, chapterOf).error
  {
    var content: seq<string> := [];
    var i := 0;
    while i < |toc|
      invariant 0 <= i <= |toc|
      invariant Pieces(toc[..i], ops, chapterOf) == Success(content)
    {
      var t := toc[i];
      assert toc[..i + 1][..i] == toc[..i] && toc[..i + 1][i] == t;
      if t.content.None? {
        PiecesStop(toc, i, ops, chapterOf);
        return Failure(AttributeError);
      }
      var path := ops + ChapterPath(t.content.value);
      var html := chapterOf(path);
      if html.None? {
        PiecesStop(toc, i, ops, chapterOf);
        return Failure(KeyError(path));
      }
      if t.text.None? {
        PiecesStop(toc, i, ops, chapterOf);
        return Failure(TypeError);
      }
      ghost var front := content;
      content := content + [Stars(t.level + 1) + " " + t.text.value + "\n"];
      content := content + [t.text.value + "{{{" + Decimal(t.level + 1) + "\n"];
      content := content + [html.value + "\n"];
      assert content == front + EntryPieces(t, ops, chapterOf).value;
      i := i + 1;
    }
    assert toc[..i] == toc;
    return Success(Flatten(content));
  }

  /** Running through a prefix and then the rest is running through the whole outline. */
  lemma {:induction false} PiecesAppend(a: seq<Toc.NavPoint>, b: seq<Toc.NavPoint>, ops: string, chapterOf: string -> Option<string>)
    ensures Pieces(a + b, ops, chapterOf)
         == match Pieces(a, ops, chapterOf)
            case Failure(e) => Failure(e)
            case Success(front) =>
              match Pieces(b, ops, chapterOf)
              case Failure(e) => Failure(e)
              case Success(back) => Success(front + back)
    decreases |b|
  {
    if b == [] {
      assert a + b == a;
      if Pieces(a, ops, chapterOf).Success? {
        assert Pieces(a, ops, chapterOf).value + [] == Pieces(a, ops, chapterOf).value;
      }
    } else {
      var b0 := b[..|b| - 1];
      assert (a + b)[..|a + b| - 1] == a + b0 && (a + b)[|a + b| - 1] == b[|b| - 1];
      PiecesAppend(a, b0, ops, chapterOf);
      if Pieces(a, ops, chapterOf).Success? && Pieces(b0, ops, chapterOf).Success?
        && EntryPieces(b[|b| - 1], ops, chapterOf).Success? {
        var f, m, l := Pieces(a, ops, chapterOf).value, Pieces(b0, ops, chapterOf).value,
          EntryPieces(b[|b| - 1], ops, chapterOf).value;
        assert f + m + l == f + (m + l);
      }
    }
  }

  /** An entry that raises ends the loop: the whole outline raises the same. */
  lemma PiecesStop(toc: seq<Toc.NavPoint>, i: nat, ops: string, chapterOf: string -> Option<string>)
    requires i < |toc| && Pieces(toc[..i], ops, chapterOf).Success?
    requires EntryPieces(toc[i], ops, chapterOf).Failure?
    ensures Pieces(toc, ops, chapterOf) == Failure(EntryPieces(toc[i], ops, chapterOf).error)
  {
    assert toc[..i + 1][..i] == toc[..i];
    PiecesAppend(toc[..i + 1], toc[i + 1..], ops, chapterOf);
    assert toc[..i + 1] + toc[i + 1..] == toc;
  }

  /** The loop goes through if and only if every entry does. */
  lemma {:induction false} PiecesSucceedIff(toc: seq<Toc.NavPoint>, ops: string, chapterOf: string -> Option<string>)
    ensures Pieces(toc, ops, chapterOf).Success?
        <==> forall i | 0 <= i < |toc| :: EntryPieces(toc[i], ops, chapterOf).Success?
    decreases |toc|
  {
    if toc != [] {
      var front := toc[..|toc| - 1];
      PiecesSucceedIff(front, ops, chapterOf);
      assert forall i | 0 <= i < |front| :: front[i] == toc[i];
    }
  }

  /** Entry `i` contributes strings `3i`, `3i + 1` and `3i + 2` of the `content` list, in outline order. */
  lemma {:induction false} PiecesInOrder(toc: seq<Toc.NavPoint>, ops: string, chapterOf: string -> Option<string>)
    requires Pieces(toc, ops, chapterOf).Success?
    ensures var content := Pieces(toc, ops, chapterOf).value;
      && |content| == 3 * |toc|
      && forall i | 0 <= i < |toc| :: EntryPieces(toc[i], ops, chapterOf) == Success(content[3 * i..3 * i + 3])
    decreases |toc|
  {
    if toc != [] {
      var n := |toc| - 1;
      var front := toc[..n];
      PiecesInOrder(front, ops, chapterOf);
      assert toc == front + [toc[n]];
      InOrderAppend(front, Pieces(front, ops, chapterOf).value, toc[n], EntryPieces(toc[n], ops, chapterOf).value, ops, chapterOf);
    }
  }

  /** Appending one entry and its three strings keeps every entry at its place. */
  lemma InOrderAppend(front: seq<Toc.NavPoint>, f: seq<string>, np: Toc.NavPoint, last: seq<string>,
                      ops: string, chapterOf: string -> Option<string>)
    requires |f| == 3 * |front| && EntryPieces(np, ops, chapterOf) == Success(last)
    requires forall i | 0 <= i < |front| :: EntryPieces(front[i], ops, chapterOf) == Success(f[3 * i..3 * i + 3])
    ensures var toc, content := front + [np], f + last;
      && |content| == 3 * |toc|
      && forall i | 0 <= i < |toc| :: EntryPieces(toc[i], ops, chapterOf) == Success(content[3 * i..3 * i + 3])
  {
    var toc, content := front + [np], f + last;
    forall i | 0 <= i < |toc|
      ensures EntryPieces(toc[i], ops, chapterOf) == Success(content[3 * i..3 * i + 3])
    {
      if i < |front| {
        SliceOfFront(f, last, 3 * i, 3 * i + 3);
      } else {
        assert content[3 * i..3 * i + 3] == last;
      }
    }
  }

  lemma SliceOfFront(f: seq<string>, g: seq<string>, i: nat, j: nat)
    requires i <= j <= |f|
    ensures (f + g)[i..j] == f[i..j]
  {
  }

  /** When the loop raises, the exception is that of the first entry that fails. */
  lemma {:induction false} PiecesFirstError(toc: seq<Toc.NavPoint>, ops: string, chapterOf: string -> Option<string>)
    requires Pieces(toc, ops, chapterOf).Failure?
    ensures exists i | 0 <= i < |toc| ::
      && Pieces(toc[..i], ops, chapterOf).Success?
      && EntryPieces(toc[i], ops, chapterOf) == Failure(Pieces(toc, ops, chapterOf).error)
    decreases |toc|
  {
    var n := |toc| - 1;
    var front := toc[..n];
    if Pieces(front, ops, chapterOf).Failure? {
      PiecesFirstError(front, ops, chapterOf);
      var i :| 0 <= i < |front| && Pieces(front[..i], ops, chapterOf).Success?
        && EntryPieces(front[i], ops, chapterOf) == Failure(Pieces(front, ops, chapterOf).error);
      assert front[..i] == toc[..i];
    }
  }

  lemma {:induction false} FlattenAppend(a: seq<string>, b: seq<string>)
    ensures Flatten(a + b) == Flatten(a) + Flatten(b)
    decreases |b|
  {
    if b == [] {
      assert a + b == a;
    } else {
      assert (a + b)[..|a + b| - 1] == a + b[..|b| - 1];
      FlattenAppend(a, b[..|b| - 1]);
    }
  }

  lemma FlattenThree(a: string, b: string, c: string)
    ensures Flatten([a, b, c]) == a + b + c
  {
    assert [a, b, c][..2] == [a, b] && [a, b][..1] == [a] && [a][..0] == [];
    assert Flatten([a]) == a by {
      assert "" + a == a;
    }
  }

  /** Each entry adds its own block after the text of the entries before it. */
  lemma OutputGrowsByEntry(toc: seq<Toc.NavPoint>, np: Toc.NavPoint, ops: string, chapterOf: string -> Option<string>)
    requires Pieces(toc + [np], ops, chapterOf).Success?
    ensures Pieces(toc, ops, chapterOf).Success? && EntryPieces(np, ops, chapterOf).Success?
    ensures Flatten(Pieces(toc + [np], ops, chapterOf).value)
         == Flatten(Pieces(toc, ops, chapterOf).value) + Flatten(EntryPieces(np, ops, chapterOf).value)
  {
    var t := toc + [np];
    assert t[..|t| - 1] == toc && t[|t| - 1] == np;
    FlattenAppend(Pieces(toc, ops, chapterOf).value, EntryPieces(np, ops, chapterOf).value);
  }

  /** The fold marker line: the title, "{{{", then digits that read back as `n`. */
  lemma MarkerLevel(t: string, n: nat)
    ensures var mark := t + "{{{" + Decimal(n);
      && |t| + 3 <= |mark|
      && mark[..|t|] == t && mark[|t|..|t| + 3] == "{{{"
      && (forall i | |t| + 3 <= i < |mark| :: IsDigit(mark[i]))
      && DecimalValue(mark[|t| + 3..]) == n
  {
    var mark := t + "{{{" + Decimal(n);
    assert mark[|t| + 3..] == Decimal(n);
    DecimalRoundTrip(n);
  }

  /**
   * One entry's block is three lines: the heading with `level + 1` stars,
   * the title with the "{{{" fold marker and the level, the chapter text.
   */
  lemma EntryLines(np: Toc.NavPoint, ops: string, chapterOf: string -> Option<string>)
    requires EntryPieces(np, ops, chapterOf).Success?
    requires var t := np.text.value; forall i | 0 <= i < |t| :: t[i] != '\n'
    requires var c := chapterOf(ops + ChapterPath(np.content.value)).value; forall i | 0 <= i < |c| :: c[i] != '\n'
    ensures var lines := Split(Flatten(EntryPieces(np, ops, chapterOf).value), '\n');
      && |lines| == 4
      && lines[0] == Stars(np.level + 1) + " " + np.text.value
      && lines[1] == np.text.value + "{{{" + Decimal(np.level + 1)
      && lines[2] == chapterOf(ops + ChapterPath(np.content.value)).value
      && lines[3] == ""
  {
    var t := np.text.value;
    var c := chapterOf(ops + ChapterPath(np.content.value)).value;
    var head := Stars(np.level + 1) + " " + t;
    var mark := t + "{{{" + Decimal(np.level + 1);
    var p := EntryPieces(np, ops, chapterOf).value;
    assert p == [head + "\n", mark + "\n", c + "\n"];
    FlattenThree(head + "\n", mark + "\n", c + "\n");
    assert head + "\n" + (mark + "\n") + (c + "\n") == head + ['\n'] + mark + ['\n'] + c + ['\n'];
    assert NoSep(head, '\n') && NoSep(mark, '\n') && NoSep(c, '\n');
    SplitLines(head, mark, c, '\n');
  }

  /** Without `META-INF/container.xml` nothing else is read: KeyError. */
  lemma MissingContainerRaises(xmlOf: string -> Option<seq<Event>>, chapterOf: string -> Option<string>, unquote: string -> string)
    requires xmlOf(ContainerPath).None?
    ensures ConvertSpec(xmlOf, chapterOf, unquote) == Failure(KeyError(ContainerPath))
  {
  }
}
