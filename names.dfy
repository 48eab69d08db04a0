/**
 * The string expressions of the Go downloader that build file names and
 * clean chapter text: `createBookFileName`, the `.epub` to `.txt` rename and
 * the tab stripping applied to every chapter.  Strings are sequences of
 * runes.
 */
module Names {

  /** The runes of `s` that satisfy `keep`, in their original order. */
  function Keep(s: string, keep: char -> bool): (r: string)
    ensures |r| <= |s|
    ensures forall i | 0 <= i < |r| :: keep(r[i])
  {
    if s == [] then []
    else (if keep(s[0]) then [s[0]] else []) + Keep(s[1..], keep)
  }

  /** Filtering distributes over concatenation, so survivors keep their relative order. */
  lemma {:induction false} KeepAppend(a: string, b: string, keep: char -> bool)
    ensures Keep(a + b, keep) == Keep(a, keep) + Keep(b, keep)
  {
    if a == [] {
      assert a + b == b;
    } else {
      assert (a + b)[1..] == a[1..] + b;
      KeepAppend(a[1..], b, keep);
    }
  }

  /** A string whose every rune is kept comes through unchanged. */
  lemma {:induction false} KeepAll(s: string, keep: char -> bool)
    requires forall i | 0 <= i < |s| :: keep(s[i])
    ensures Keep(s, keep) == s
  {
    if s != [] {
      KeepAll(s[1..], keep);
      assert s == [s[0]] + s[1..];
    }
  }

  /** Every kept rune survives as often as it occurs; every other rune is gone. */
  lemma {:induction false} KeepCounts(s: string, keep: char -> bool, c: char)
    ensures multiset(Keep(s, keep))[c] == if keep(c) then multiset(s)[c] else 0
  {
    if s != [] {
      KeepCounts(s[1..], keep, c);
      assert s == [s[0]] + s[1..];
      assert multiset(s) == multiset([s[0]]) + multiset(s[1..]);
    }
  }

  /** Go RE2's `\w`: ASCII letters, digits and underscore. */
  predicate IsWordChar(c: char)
  {
    ('0' <= c <= '9') || ('A' <= c <= 'Z') || ('a' <= c <= 'z') || c == '_'
  }

  /** `regexp.MustCompile("[^\w]").ReplaceAllString(title, "")`. */
  function StripNonWord(title: string): string
  {
    Keep(title, IsWordChar)
  }

  /**
   * `createBookFileName`: the word characters of the title, a dot, the
   * format.  The stem holds only word characters and the name always ends
   * with "." + format, so it is never empty.
   */
  function CreateBookFileName(title: string, format: string): (name: string)
    ensures name != [] && |name| == |StripNonWord(title)| + 1 + |format|
    ensures name[|name| - |format| - 1..] == "." + format
    ensures name[..|name| - |format| - 1] == StripNonWord(title)
    ensures forall i | 0 <= i < |name| - |format| - 1 :: IsWordChar(name[i])
  {
    StripNonWord(title) + "." + format
  }

  /** A title made only of word characters is used as it is. */
  lemma CleanTitleKept(title: string, format: string)
    requires forall i | 0 <= i < |title| :: IsWordChar(title[i])
    ensures CreateBookFileName(title, format) == title + "." + format
  {
    KeepAll(title, IsWordChar);
  }

  /** Cleaning a title twice is the same as cleaning it once. */
  lemma StripNonWordIdempotent(title: string)
    ensures StripNonWord(StripNonWord(title)) == StripNonWord(title)
  {
    KeepAll(StripNonWord(title), IsWordChar);
  }

  /** Cleaning works piecewise: the survivors of two parts, in order. */
  lemma StripNonWordAppend(a: string, b: string)
    ensures StripNonWord(a + b) == StripNonWord(a) + StripNonWord(b)
  {
    KeepAppend(a, b, IsWordChar);
  }

  /** Each word character of the title survives as often as it occurs; no other rune does. */
  lemma StripNonWordCounts(title: string, c: char)
    ensures multiset(StripNonWord(title))[c] == if IsWordChar(c) then multiset(title)[c] else 0
  {
    KeepCounts(title, IsWordChar, c);
  }

  predicate HasSuffix(s: string, suffix: string)
  {
    |suffix| <= |s| && s[|s| - |suffix|..] == suffix
  }

  /** `strings.TrimSuffix(name, ".epub") + ".txt"`. */
  function OutputFileName(name: string): (out: string)
    ensures HasSuffix(out, ".txt")
    ensures HasSuffix(name, ".epub") ==> |out| == |name| - 1 && out[..|name| - 5] == name[..|name| - 5]
    ensures !HasSuffix(name, ".epub") ==> |out| == |name| + 4 && out[..|name|] == name
  {
    if HasSuffix(name, ".epub") then name[..|name| - 5] + ".txt" else name + ".txt"
  }

  /** The files the converter picks are `<stem>.epub`; each is written to `<stem>.txt`. */
  lemma EpubRenamedToTxt(stem: string)
    ensures OutputFileName(stem + ".epub") == stem + ".txt"
  {
    var name := stem + ".epub";
    assert HasSuffix(name, ".epub");
    assert name[..|name| - 5] == stem;
  }

  predicate NotTab(c: char)
  {
    c != '\t'
  }

  /** `strings.ReplaceAll(chapter, "\t", "")`. */
  function StripTabs(chapter: string): (r: string)
    ensures forall i | 0 <= i < |r| :: r[i] != '\t'
  {
    Keep(chapter, NotTab)
  }

  /** Stripping removes tabs and nothing else: every other rune keeps its count. */
  lemma StripTabsCounts(chapter: string, c: char)
    ensures multiset(StripTabs(chapter))[c] == if c == '\t' then 0 else multiset(chapter)[c]
  {
    KeepCounts(chapter, NotTab, c);
  }

  /** A chapter without tabs is written unchanged. */
  lemma StripTabsNoTab(chapter: string)
    requires forall i | 0 <= i < |chapter| :: chapter[i] != '\t'
    ensures StripTabs(chapter) == chapter
  {
    KeepAll(chapter, NotTab);
  }

  /** Stripping works piecewise, so the runes that remain keep their order. */
  lemma StripTabsAppend(a: string, b: string)
    ensures StripTabs(a + b) == StripTabs(a) + StripTabs(b)
  {
    KeepAppend(a, b, NotTab);
  }
}
