/**
 * Word splitting as done by Go's `bufio.ScanWords`, which the layout engine
 * uses to break a text token into words.  Only the rune-level behaviour is
 * modelled: a word is a maximal run of runes that are not separators.
 */
module Scan {

  /** The separators of `bufio.ScanWords` (its private `isSpace`). */
  predicate IsSpace(r: char)
  {
    if r <= '\U{FF}' then
      r == ' ' || r == '\t' || r == '\n' || r == '\U{0B}' || r == '\U{0C}' || r == '\r'
      || r == '\U{85}' || r == '\U{A0}'
    else
      ('\U{2000}' <= r <= '\U{200A}')
      || r == '\U{1680}' || r == '\U{2028}' || r == '\U{2029}'
      || r == '\U{202F}' || r == '\U{205F}' || r == '\U{3000}'
  }

  /** A word: non-empty and free of separators. */
  predicate IsWord(w: string)
  {
    w != [] && forall i | 0 <= i < |w| :: !IsSpace(w[i])
  }

  /** The suffix of `s` left after its leading separators. */
  function SkipSpace(s: string): (r: string)
    ensures |r| <= |s| && r == s[|s| - |r|..]
    ensures forall i | 0 <= i < |s| - |r| :: IsSpace(s[i])
    ensures r != [] ==> !IsSpace(r[0])
  {
    if s != [] && IsSpace(s[0]) then SkipSpace(s[1..]) else s
  }

  /** The length of the longest separator-free prefix of `s`. */
  function WordLength(s: string): (n: nat)
    ensures n <= |s|
    ensures forall i | 0 <= i < n :: !IsSpace(s[i])
    ensures n < |s| ==> IsSpace(s[n])
  {
    if s == [] || IsSpace(s[0]) then 0 else 1 + WordLength(s[1..])
  }

  /** The tokens `bufio.ScanWords` yields for `s`, in order. */
  function Words(s: string): (ws: seq<string>)
    ensures forall k | 0 <= k < |ws| :: IsWord(ws[k])
    decreases |s|
  {
    var t := SkipSpace(s);
    if t == [] then []
    else
      var n := WordLength(t);
      assert IsWord(t[..n]);
      [t[..n]] + Words(t[n..])
  }

  /** `s` with every separator removed. */
  function DropSpaces(s: string): (r: string)
  {
    if s == [] then []
    else (if IsSpace(s[0]) then [] else [s[0]]) + DropSpaces(s[1..])
  }

  function Concat(ws: seq<string>): string
  {
    if ws == [] then [] else ws[0] + Concat(ws[1..])
  }

  lemma {:induction false} DropSpacesAppend(a: string, b: string)
    ensures DropSpaces(a + b) == DropSpaces(a) + DropSpaces(b)
  {
    if a == [] {
      assert a + b == b;
    } else {
      assert (a + b)[1..] == a[1..] + b;
      DropSpacesAppend(a[1..], b);
    }
  }

  lemma {:induction false} DropSpacesOfSpaces(s: string)
    requires forall i | 0 <= i < |s| :: IsSpace(s[i])
    ensures DropSpaces(s) == []
  {
    if s != [] {
      DropSpacesOfSpaces(s[1..]);
    }
  }

  lemma {:induction false} DropSpacesOfWord(s: string)
    requires forall i | 0 <= i < |s| :: !IsSpace(s[i])
    ensures DropSpaces(s) == s
  {
    if s != [] {
      DropSpacesOfWord(s[1..]);
      assert s == [s[0]] + s[1..];
    }
  }

  lemma DropLeadingSpaces(s: string)
    ensures DropSpaces(s) == DropSpaces(SkipSpace(s))
  {
    var t := SkipSpace(s);
    var pre := s[..|s| - |t|];
    assert s == pre + t;
    DropSpacesAppend(pre, t);
    DropSpacesOfSpaces(pre);
  }

  lemma DropSpacesSplit(t: string, n: nat)
    requires n <= |t| && forall i | 0 <= i < n :: !IsSpace(t[i])
    ensures DropSpaces(t) == t[..n] + DropSpaces(t[n..])
  {
    assert t == t[..n] + t[n..];
    DropSpacesAppend(t[..n], t[n..]);
    DropSpacesOfWord(t[..n]);
  }

  /**
   * Splitting loses nothing but the separators: the words, glued back
   * together, are the input with its separators removed.
   */
  lemma {:induction false} WordsKeepEveryRune(s: string)
    ensures Concat(Words(s)) == DropSpaces(s)
    decreases |s|
  {
    DropLeadingSpaces(s);
    var t := SkipSpace(s);
    if t != [] {
      var n := WordLength(t);
      var w, u := t[..n], t[n..];
      DropSpacesSplit(t, n);
      WordsKeepEveryRune(u);
      assert Words(s) == [w] + Words(u);
      assert Concat([w] + Words(u)) == w + Concat(Words(u));
    }
  }

  lemma WordLengthOfWord(s: string, n: nat)
    requires n <= |s| && forall i | 0 <= i < n :: !IsSpace(s[i])
    requires n < |s| ==> IsSpace(s[n])
    ensures WordLength(s) == n
  {
  }

  /** A separator-free, non-empty string is read as exactly one word. */
  lemma SingleWord(w: string)
    requires IsWord(w)
    ensures Words(w) == [w]
  {
    assert SkipSpace(w) == w;
    WordLengthOfWord(w, |w|);
    assert w[..|w|] == w;
    assert w[|w|..] == [];
    assert Words([]) == [];
  }

  lemma WordsAfterSpace(c: char, rest: string)
    requires IsSpace(c)
    ensures Words([c] + rest) == Words(rest)
  {
    assert ([c] + rest)[1..] == rest;
    assert SkipSpace([c] + rest) == SkipSpace(rest);
  }

  /** Words on either side of a separator are scanned independently. */
  lemma WordsAcrossSeparator(w: string, c: char, rest: string)
    requires IsWord(w) && IsSpace(c)
    ensures Words(w + [c] + rest) == [w] + Words(rest)
  {
    var s := w + [c] + rest;
    assert s[0] == w[0];
    WordsOfWordStart(s);
    assert s[|w|] == c;
    WordLengthOfWord(s, |w|);
    assert s[..|w|] == w;
    assert s[|w|..] == [c] + rest;
    WordsAfterSpace(c, rest);
  }

  /** A string that starts with a non-separator yields its first word, then the words after it. */
  lemma WordsOfWordStart(s: string)
    requires s != [] && !IsSpace(s[0])
    ensures Words(s) == [s[..WordLength(s)]] + Words(s[WordLength(s)..])
  {
    assert SkipSpace(s) == s;
  }

  lemma PrependTwo(a: string, b: string, ws: seq<string>)
    ensures [a] + ([b] + ws) == [a, b] + ws
  {
  }

  /** Two words, each followed by a space, come out ahead of the words of the rest. */
  lemma WordsAfterTwoWords(a: string, b: string, rest: string)
    requires IsWord(a) && IsWord(b)
    ensures Words(a + [' '] + (b + [' '] + rest)) == [a, b] + Words(rest)
  {
    WordsAcrossSeparator(a, ' ', b + [' '] + rest);
    WordsAcrossSeparator(b, ' ', rest);
    PrependTwo(a, b, Words(rest));
  }

  /** Two words separated by a space are read as exactly those two words. */
  lemma TwoWords(a: string, b: string)
    requires IsWord(a) && IsWord(b)
    ensures var ws := Words(a + [' '] + b); |ws| == 2 && ws[0] == a && ws[1] == b
  {
    WordsAcrossSeparator(a, ' ', b);
    SingleWord(b);
  }
}
