/**
 * The Python string operations `convert` uses to find files in the archive:
 * `str.split` on a one-character separator, `str.join`, the directory of the
 * package document (`ops`) and the file part of an NCX `content` reference.
 */
module Paths {

  /** `s` holds no `sep`. */
  predicate NoSep(s: string, sep: char)
  {
    forall i | 0 <= i < |s| :: s[i] != sep
  }

  /** The position of the last `sep` in `s`, or -1 when there is none. */
  function LastSep(s: string, sep: char): (k: int)
    ensures -1 <= k < |s|
    ensures k >= 0 ==> s[k] == sep
    ensures forall i | k < i < |s| :: s[i] != sep
  {
    if s == [] then -1
    else if s[|s| - 1] == sep then |s| - 1
    else LastSep(s[..|s| - 1], sep)
  }

  /**
   * `s.split(sep)`: the pieces between separators, empty ones included; a
   * string without `sep` is a single piece.
   */
  function Split(s: string, sep: char): (parts: seq<string>)
    ensures |parts| >= 1
  {
    if s == [] then [""]
    else
      var rest := Split(s[1..], sep);
      if s[0] == sep then [""] + rest
      else [[s[0]] + rest[0]] + rest[1..]
  }

  /** `sep.join(parts)`. */
  function Join(sep: char, parts: seq<string>): string
  {
    if parts == [] then ""
    else if |parts| == 1 then parts[0]
    else parts[0] + [sep] + Join(sep, parts[1..])
  }

  /** Joining what was split gives the string back. */
  lemma {:induction false} JoinSplit(s: string, sep: char)
    ensures Join(sep, Split(s, sep)) == s
  {
    if s != [] {
      JoinSplit(s[1..], sep);
      JoinCons(s[0], Split(s[1..], sep), sep);
      assert s == [s[0]] + s[1..];
    }
  }

  /** Joining after one more rune: a separator adds an empty piece, any other rune lengthens the first. */
  lemma JoinCons(c: char, rest: seq<string>, sep: char)
    requires |rest| >= 1
    ensures c == sep ==> Join(sep, [""] + rest) == [sep] + Join(sep, rest)
    ensures c != sep ==> Join(sep, [[c] + rest[0]] + rest[1..]) == [c] + Join(sep, rest)
  {
    assert ([""] + rest)[1..] == rest;
    var parts := [[c] + rest[0]] + rest[1..];
    assert parts[1..] == rest[1..];
  }

  /** Splitting at a separator splits each side on its own. */
  lemma {:induction false} SplitAround(a: string, sep: char, b: string)
    ensures Split(a + [sep] + b, sep) == Split(a, sep) + Split(b, sep)
  {
    var s := a + [sep] + b;
    if a == [] {
      assert s == [sep] + b;
      SplitCons(sep, b, sep);
    } else {
      var t := a[1..] + [sep] + b;
      assert s == [a[0]] + t && a == [a[0]] + a[1..];
      SplitAround(a[1..], sep, b);
      SplitCons(a[0], t, sep);
      SplitCons(a[0], a[1..], sep);
      JoinFirstPieces(a[0], Split(a[1..], sep), Split(b, sep), sep);
    }
  }

  /** The piece algebra behind `SplitAround`: a leading rune acts on the first piece only. */
  lemma JoinFirstPieces(c: char, pa: seq<string>, pb: seq<string>, sep: char)
    requires |pa| >= 1
    ensures c == sep ==> [""] + (pa + pb) == [""] + pa + pb
    ensures c != sep ==> [[c] + (pa + pb)[0]] + (pa + pb)[1..] == [[c] + pa[0]] + pa[1..] + pb
  {
    assert (pa + pb)[0] == pa[0] && (pa + pb)[1..] == pa[1..] + pb;
  }

  /** One rune in front: a separator starts a new piece, any other rune joins the first piece. */
  lemma SplitCons(c: char, t: string, sep: char)
    ensures var rest := Split(t, sep);
      Split([c] + t, sep) == if c == sep then [""] + rest else [[c] + rest[0]] + rest[1..]
  {
    assert ([c] + t)[1..] == t;
  }

  /** A separator with none after it is the last one. */
  lemma LastSepAfter(s: string, sep: char, k: nat)
    requires k < |s| && s[k] == sep && forall i | k < i < |s| :: s[i] != sep
    ensures LastSep(s, sep) == k
  {
  }

  /** A string without the separator is one piece. */
  lemma {:induction false} SplitNone(s: string, sep: char)
    requires NoSep(s, sep)
    ensures Split(s, sep) == [s]
  {
    if s != [] {
      SplitNone(s[1..], sep);
      assert s == [s[0]] + s[1..];
    }
  }

  /**
   * `ops`: the rootfile's directory joined back with "/" and a trailing "/"
   * added unless it is empty.
   */
  function Ops(rootfile: string): (ops: string)
    ensures ops == [] || ops[|ops| - 1] == '/'
  {
    var parts := Split(rootfile, '/');
    var dir := Join('/', parts[..|parts| - 1]);
    if dir != "" then dir + "/" else dir
  }

  /**
   * `ops` is the rootfile up to and including its last "/", or "" when there
   * is no "/" or nothing stands before it.
   */
  lemma OpsIsDirectory(rootfile: string)
    ensures var k := LastSep(rootfile, '/');
      Ops(rootfile) == if k <= 0 then "" else rootfile[..k + 1]
  {
    var k := LastSep(rootfile, '/');
    if k < 0 {
      SplitNone(rootfile, '/');
    } else {
      var dir, name := rootfile[..k], rootfile[k + 1..];
      assert rootfile == dir + ['/'] + name;
      SplitAround(dir, '/', name);
      SplitNone(name, '/');
      var parts := Split(rootfile, '/');
      assert parts[..|parts| - 1] == Split(dir, '/');
      JoinSplit(dir, '/');
      assert dir + "/" == rootfile[..k + 1];
    }
  }

  /** A package document at the top of the archive: files are read with no prefix. */
  lemma OpsAtTop(rootfile: string)
    requires forall i | 0 <= i < |rootfile| :: rootfile[i] != '/'
    ensures Ops(rootfile) == ""
  {
    OpsIsDirectory(rootfile);
  }

  /** `OEBPS/content.opf` gives `OEBPS/`. */
  lemma OpsOfSubdirectory(dir: string, name: string)
    requires dir != [] && forall i | 0 <= i < |name| :: name[i] != '/'
    ensures Ops(dir + "/" + name) == dir + "/"
  {
    var s := dir + "/" + name;
    OpsIsDirectory(s);
    LastSepAfter(s, '/', |dir|);
    assert s[..|dir| + 1] == dir + "/";
  }

  /** `content.split("#")[0]`: the file part of a reference, before any fragment. */
  function ChapterPath(content: string): (path: string)
  {
    Split(content, '#')[0]
  }

  /** The file part is the longest prefix without "#": the whole string, or up to the first "#". */
  lemma {:induction false} ChapterPathIsPrefix(content: string)
    ensures var path := ChapterPath(content);
      && path <= content
      && NoSep(path, '#')
      && (path == content || content[|path|] == '#')
  {
    if content != [] && content[0] != '#' {
      ChapterPathIsPrefix(content[1..]);
      var rest := ChapterPath(content[1..]);
      assert ChapterPath(content) == [content[0]] + rest;
    }
  }

  /** `chapter1.html#section2` names `chapter1.html`. */
  lemma FragmentDropped(file: string, fragment: string)
    requires forall i | 0 <= i < |file| :: file[i] != '#'
    ensures ChapterPath(file + "#" + fragment) == file
  {
    SplitAround(file, '#', fragment);
    SplitNone(file, '#');
  }

  /** A separator-free line ended by the separator: itself, then "". */
  lemma SplitLastLine(z: string, sep: char)
    requires NoSep(z, sep)
    ensures Split(z + [sep], sep) == [z, ""]
  {
    SplitAround(z, sep, "");
    SplitNone(z, sep);
    assert z + [sep] + "" == z + [sep];
  }

  /** A separator-free line in front of the rest: itself, then the pieces of the rest. */
  lemma SplitFirstLine(x: string, sep: char, rest: string)
    requires NoSep(x, sep)
    ensures Split(x + [sep] + rest, sep) == [x] + Split(rest, sep)
  {
    SplitNone(x, sep);
    SplitAround(x, sep, rest);
  }

  /** Three separator-free lines, each ended by the separator, split into themselves and a final "". */
  lemma SplitLines(x: string, y: string, z: string, sep: char)
    requires NoSep(x, sep) && NoSep(y, sep) && NoSep(z, sep)
    ensures Split(x + [sep] + y + [sep] + z + [sep], sep) == [x, y, z, ""]
  {
    var w := z + [sep];
    SplitLastLine(z, sep);
    var v := y + [sep] + w;
    SplitFirstLine(y, sep, w);
    SplitFirstLine(x, sep, v);
    assert x + [sep] + y + [sep] + z + [sep] == x + [sep] + v;
  }
}
