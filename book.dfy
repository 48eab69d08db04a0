/**
 * `BookParser`: reads `dc:title`, `dc:creator` and the NCX href out of the
 * OPF package document.  The title and the author share one buffer, which
 * is reset when either element starts or ends.
 */
module Book {
  import opened Wrappers
  import opened Xml

  datatype BookState = BookState(
    title: string, author: string, inTitle: bool, inAuthor: bool, ncx: string,
    buffer: Option<string>)

  /** `__init__`: empty strings, both flags 0, `buffer` not yet an attribute. */
  const Initial := BookState("", "", false, false, "", None)

  /** The manifest ids the parser takes for the NCX. */
  predicate IsNcxId(id: string)
  {
    id == "ncx" || id == "toc" || id == "ncxtoc"
  }

  /** `startElement`. */
  function OnStart(s: BookState, name: string, attrs: map<string, string>): Result<BookState, PyError>
  {
    if name == "dc:title" then Success(s.(buffer := Some(""), inTitle := true))
    else if name == "dc:creator" then Success(s.(buffer := Some(""), inAuthor := true))
    else if name == "item" then
      match Get(attrs, "id")
      case Failure(e) => Failure(e)
      case Success(id) =>
        if !IsNcxId(id) then Success(s)
        else
          match Get(attrs, "href")
          case Failure(e) => Failure(e)
          case Success(href) => Success(s.(ncx := href))
    else Success(s)
  }

  /** `characters`: data goes to the buffer while inside a title or a creator. */
  function OnChars(s: BookState, data: string): Result<BookState, PyError>
  {
    if !(s.inTitle || s.inAuthor) then Success(s)
    else
      match s.buffer
      case None => Failure(AttributeError)
      case Some(b) => Success(s.(buffer := Some(b + data)))
  }

  /** `endElement`: the buffer becomes the title or the author, and is reset. */
  function OnEnd(s: BookState, name: string): Result<BookState, PyError>
  {
    if name == "dc:title" then
      match s.buffer
      case None => Failure(AttributeError)
      case Some(b) => Success(s.(inTitle := false, title := b, buffer := Some("")))
    else if name == "dc:creator" then
      match s.buffer
      case None => Failure(AttributeError)
      case Some(b) => Success(s.(inAuthor := false, author := b, buffer := Some("")))
    else Success(s)
  }

  function Step(s: BookState, e: Event): Result<BookState, PyError>
  {
    match e
    case Start(name, attrs) => OnStart(s, name, attrs)
    case Chars(data) => OnChars(s, data)
    case End(name) => OnEnd(s, name)
  }

  /** `parser.Parse(...)`: the callbacks in order, stopping at the first exception. */
  function Run(s: BookState, events: seq<Event>): Result<BookState, PyError>
    decreases |events|
  {
    if events == [] then Success(s)
    else
      match Step(s, events[0])
      case Failure(e) => Failure(e)
      case Success(s1) => Run(s1, events[1..])
  }

  /** The `(title, author, ncx)` triple `parseBook` returns, or what it raises. */
  function Metadata(r: Result<BookState, PyError>): Result<(string, string, string), PyError>
  {
    match r
    case Failure(e) => Failure(e)
    case Success(s) => Success((s.title, s.author, s.ncx))
  }

  /** `BookParser(xml).parseBook()`. */
  function ParseBook(events: seq<Event>): Result<(string, string, string), PyError>
  {
    Metadata(Run(Initial, events))
  }

  class BookParser {
    var title: string
    var author: string
    var inTitle: bool
    var inAuthor: bool
    var ncx: string
    var buffer: Option<string>
    const xml: seq<Event>

    function State(): BookState
      reads this
    {
      BookState(title, author, inTitle, inAuthor, ncx, buffer)
    }

    constructor (xmlcontent: seq<Event>)
      ensures State() == Initial && xml == xmlcontent
    {
      xml := xmlcontent;
      title, author := "", "";
      inTitle, inAuthor := false, false;
      ncx := "";
      buffer := None;
    }

    method StartElement(name: string, attrs: map<string, string>) returns (raised: Option<PyError>)
      modifies this
      ensures Outcome(State(), raised) == OnStart(old(State()), name, attrs)
    {
      raised := None;
      if name == "dc:title" {
        buffer := Some("");
        inTitle := true;
      } else if name == "dc:creator" {
        buffer := Some("");
        inAuthor := true;
      } else if name == "item" {
        if "id" !in attrs {
          return Some(KeyError("id"));
        }
        if attrs["id"] == "ncx" || attrs["id"] == "toc" || attrs["id"] == "ncxtoc" {
          if "href" !in attrs {
            return Some(KeyError("href"));
          }
          ncx := attrs["href"];
        }
      }
    }

    method Characters(data: string) returns (raised: Option<PyError>)
      modifies this
      ensures Outcome(State(), raised) == OnChars(old(State()), data)
    {
      raised := None;
      if inTitle || inAuthor {
        if buffer.None? {
          return Some(AttributeError);
        }
        buffer := Some(buffer.value + data);
      }
    }

    method EndElement(name: string) returns (raised: Option<PyError>)
      modifies this
      ensures Outcome(State(), raised) == OnEnd(old(State()), name)
    {
      raised := None;
      if name == "dc:title" {
        inTitle := false;
        if buffer.None? {
          return Some(AttributeError);
        }
        title := buffer.value;
        buffer := Some("");
      } else if name == "dc:creator" {
        inAuthor := false;
        if buffer.None? {
          return Some(AttributeError);
        }
        author := buffer.value;
        buffer := Some("");
      }
    }

    /** `parseBook`. */
    method Parse() returns (r: Result<(string, string, string), PyError>)
      modifies this
      ensures r == Metadata(Run(old(State()), xml))
    {
      var i := 0;
      while i < |xml|
        invariant 0 <= i <= |xml|
        invariant Run(State(), xml[i..]) == Run(old(State()), xml)
      {
        assert xml[i..][0] == xml[i] && xml[i..][1..] == xml[i + 1..];
        var raised;
        match xml[i] {
          case Start(name, attrs) => raised := StartElement(name, attrs);
          case Chars(data) => raised := Characters(data);
          case End(name) => raised := EndElement(name);
        }
        if raised.Some? {
          return Failure(raised.value);
        }
        i := i + 1;
      }
      return Success((title, author, ncx));
    }
  }

  // ---------------------------------------------------------------------
  // Properties
  // ---------------------------------------------------------------------

  /** Running two stretches of events is running the second from where the first left off. */
  lemma {:induction false} RunAppend(s: BookState, a: seq<Event>, b: seq<Event>)
    ensures Run(s, a + b) == match Run(s, a) case Failure(e) => Failure(e) case Success(s1) => Run(s1, b)
    decreases |a|
  {
    if a == [] {
      assert a + b == b;
    } else {
      assert (a + b)[0] == a[0] && (a + b)[1..] == a[1..] + b;
      if Step(s, a[0]).Success? {
        RunAppend(Step(s, a[0]).value, a[1..], b);
      }
    }
  }

  /**
   * Inside a title or a creator, with no title or creator tag in between,
   * every piece of character data is appended to the buffer and nothing
   * else that matters changes.
   */
  lemma {:induction false} BufferCollects(s: BookState, mid: seq<Event>)
    requires (s.inTitle || s.inAuthor) && s.buffer.Some?
    requires NoTag(mid, "dc:title") && NoTag(mid, "dc:creator")
    ensures var r := Run(s, mid);
      r.Success? ==> r.value == s.(buffer := Some(s.buffer.value + CharData(mid)), ncx := r.value.ncx)
    decreases |mid|
  {
    if mid != [] {
      var r1 := Step(s, mid[0]);
      if r1.Success? {
        var s1 := r1.value;
        assert [mid[0]][1..] == [];
        assert CharData([mid[0]]) == if mid[0].Chars? then mid[0].data else "";
        if !mid[0].Chars? {
          assert s.buffer.value + CharData([mid[0]]) == s.buffer.value;
          assert !IsStart(mid[0], "dc:title") && !IsStart(mid[0], "dc:creator");
          assert !IsEnd(mid[0], "dc:title") && !IsEnd(mid[0], "dc:creator");
        }
        assert s1 == s.(buffer := Some(s.buffer.value + CharData([mid[0]])), ncx := s1.ncx);
        BufferCollects(s1, mid[1..]);
        assert mid == [mid[0]] + mid[1..];
        CharDataAppend([mid[0]], mid[1..]);
        assert Run(s, mid) == Run(s1, mid[1..]);
        var b, c0, c1 := s.buffer.value, CharData([mid[0]]), CharData(mid[1..]);
        assert (b + c0) + c1 == b + (c0 + c1);
      }
    } else {
      assert s.buffer.value + CharData(mid) == s.buffer.value;
    }
  }

  /** Without a closing `dc:title` the title stays; without a closing `dc:creator` the author stays. */
  lemma {:induction false} EndsSetNames(s: BookState, tag: string, post: seq<Event>)
    requires tag == "dc:title" || tag == "dc:creator"
    requires forall i | 0 <= i < |post| :: !IsEnd(post[i], tag)
    ensures var r := Run(s, post);
      && (r.Success? && tag == "dc:title" ==> r.value.title == s.title)
      && (r.Success? && tag == "dc:creator" ==> r.value.author == s.author)
    decreases |post|
  {
    if post != [] {
      var r1 := Step(s, post[0]);
      if r1.Success? {
        assert forall i | 0 <= i < |post[1..]| :: post[1..][i] == post[i + 1];
        EndsSetNames(r1.value, tag, post[1..]);
      }
    }
  }

  /**
   * `title` is the character data between the start and the end of the last
   * `dc:title` element (taken from the shared buffer at its end tag).
   */
  lemma TitleIsLastTitleText(s: BookState, pre: seq<Event>, attrs: map<string, string>, mid: seq<Event>, post: seq<Event>)
    requires NoTag(mid, "dc:title") && NoTag(mid, "dc:creator")
    requires forall i | 0 <= i < |post| :: !IsEnd(post[i], "dc:title")
    ensures var r := Run(s, pre + [Start("dc:title", attrs)] + mid + [End("dc:title")] + post);
      r.Success? ==> r.value.title == CharData(mid)
  {
    Captures(s, pre, "dc:title", attrs, mid, post);
  }

  /** Likewise `author` is the character data of the last `dc:creator` element. */
  lemma AuthorIsLastCreatorText(s: BookState, pre: seq<Event>, attrs: map<string, string>, mid: seq<Event>, post: seq<Event>)
    requires NoTag(mid, "dc:title") && NoTag(mid, "dc:creator")
    requires forall i | 0 <= i < |post| :: !IsEnd(post[i], "dc:creator")
    ensures var r := Run(s, pre + [Start("dc:creator", attrs)] + mid + [End("dc:creator")] + post);
      r.Success? ==> r.value.author == CharData(mid)
  {
    Captures(s, pre, "dc:creator", attrs, mid, post);
  }

  lemma Captures(s: BookState, pre: seq<Event>, tag: string, attrs: map<string, string>, mid: seq<Event>, post: seq<Event>)
    requires tag == "dc:title" || tag == "dc:creator"
    requires NoTag(mid, "dc:title") && NoTag(mid, "dc:creator")
    requires forall i | 0 <= i < |post| :: !IsEnd(post[i], tag)
    ensures var r := Run(s, pre + [Start(tag, attrs)] + mid + [End(tag)] + post);
      && (r.Success? && tag == "dc:title" ==> r.value.title == CharData(mid))
      && (r.Success? && tag == "dc:creator" ==> r.value.author == CharData(mid))
  {
    var open, close := [Start(tag, attrs)], [End(tag)];
    RunAppend(s, pre + open + mid + close, post);
    RunAppend(s, pre + open + mid, close);
    RunAppend(s, pre + open, mid);
    RunAppend(s, pre, open);
    var r0 := Run(s, pre);
    if r0.Success? {
      assert open[1..] == [] && close[1..] == [];
      var s1 := r0.value;
      var s2 := Run(s1, open);
      assert s2.Success? && s2.value.buffer == Some("");
      BufferCollects(s2.value, mid);
      var s3 := Run(s2.value, mid);
      if s3.Success? {
        var s4 := Run(s3.value, close);
        assert "" + CharData(mid) == CharData(mid);
        if s4.Success? {
          assert tag == "dc:title" ==> s4.value.title == CharData(mid);
          assert tag == "dc:creator" ==> s4.value.author == CharData(mid);
          EndsSetNames(s4.value, tag, post);
        }
      }
    }
  }

  /** A manifest `item` the parser takes as the NCX. */
  predicate NcxItem(e: Event)
  {
    IsStart(e, "item") && "id" in e.attrs && IsNcxId(e.attrs["id"])
  }

  /** `ncx` only changes at an NCX item. */
  lemma {:induction false} NcxOnlyAtItems(s: BookState, events: seq<Event>)
    requires forall i | 0 <= i < |events| :: !NcxItem(events[i])
    ensures Run(s, events).Success? ==> Run(s, events).value.ncx == s.ncx
    decreases |events|
  {
    if events != [] && Step(s, events[0]).Success? {
      NcxOnlyAtItems(Step(s, events[0]).value, events[1..]);
    }
  }

  /** `ncx` is the href of the last item whose id is "ncx", "toc" or "ncxtoc". */
  lemma LastNcxItemWins(s: BookState, pre: seq<Event>, attrs: map<string, string>, post: seq<Event>)
    requires "id" in attrs && IsNcxId(attrs["id"]) && "href" in attrs
    requires forall i | 0 <= i < |post| :: !NcxItem(post[i])
    ensures var r := Run(s, pre + [Start("item", attrs)] + post);
      r.Success? ==> r.value.ncx == attrs["href"]
  {
    var item := [Start("item", attrs)];
    RunAppend(s, pre + item, post);
    RunAppend(s, pre, item);
    var r0 := Run(s, pre);
    if r0.Success? {
      assert item[1..] == [];
      var s1 := Run(r0.value, item);
      assert s1 == Success(r0.value.(ncx := attrs["href"]));
      NcxOnlyAtItems(s1.value, post);
    }
  }

  /** A package without NCX items reports an empty `ncx`. */
  lemma NoNcxItemGivesEmpty(events: seq<Event>)
    requires forall i | 0 <= i < |events| :: !NcxItem(events[i])
    ensures ParseBook(events).Success? ==> ParseBook(events).value.2 == ""
  {
    NcxOnlyAtItems(Initial, events);
  }

  /** An `item` without `id` raises KeyError('id') once the parse reaches it. */
  lemma ItemWithoutIdRaises(s: BookState, pre: seq<Event>, attrs: map<string, string>, post: seq<Event>)
    requires "id" !in attrs && Run(s, pre).Success?
    ensures Run(s, pre + [Start("item", attrs)] + post) == Failure(KeyError("id"))
  {
    var item := [Start("item", attrs)];
    RunAppend(s, pre + item, post);
    RunAppend(s, pre, item);
  }

  /** An NCX `item` without `href` raises KeyError('href'); other items need no `href`. */
  lemma NcxItemWithoutHrefRaises(s: BookState, pre: seq<Event>, attrs: map<string, string>, post: seq<Event>)
    requires "id" in attrs && "href" !in attrs && Run(s, pre).Success?
    ensures IsNcxId(attrs["id"]) ==> Run(s, pre + [Start("item", attrs)] + post) == Failure(KeyError("href"))
    ensures !IsNcxId(attrs["id"]) ==> Run(s, pre + [Start("item", attrs)] + post) == Run(Run(s, pre).value, post)
  {
    var item := [Start("item", attrs)];
    RunAppend(s, pre + item, post);
    RunAppend(s, pre, item);
    assert item[1..] == [];
  }
}
