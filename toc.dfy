/**
 * `TocParser`: turns the nested `navPoint` elements of an NCX document
 * (section 2.4.1 of OPF 2.0.1) into a flat outline whose entries carry their
 * nesting level.  A `NavPoint` object is shared between `toc`, `stack` and
 * `currentNP`; the model names each object by its position in `toc`, where
 * it is appended exactly once, when it is created.
 */
module Toc {
  import opened Wrappers
  import opened Xml

  datatype NavPoint = NavPoint(
    id: string, playorder: string, level: nat, content: Option<string>, text: Option<string>)

  datatype TocState = TocState(
    currentNP: Option<nat>, stack: seq<nat>, inText: bool, toc: seq<NavPoint>,
    buffer: Option<string>)

  /** `__init__`: no current entry, empty stack and outline, `buffer` not yet an attribute. */
  const Initial := TocState(None, [], false, [], None)

  /** Every reference to a NavPoint names an entry of `toc`. */
  predicate InRange(s: TocState)
  {
    && (s.currentNP.Some? ==> s.currentNP.value < |s.toc|)
    && forall j | 0 <= j < |s.stack| :: s.stack[j] < |s.toc|
  }

  /** `startElement`. */
  function OnStart(s: TocState, name: string, attrs: map<string, string>, unquote: string -> string): (r: Result<TocState, PyError>)
    requires InRange(s)
    ensures r.Success? ==> InRange(r.value)
  {
    if name == "navPoint" then
      match Get(attrs, "id")
      case Failure(e) => Failure(e)
      case Success(id) =>
        match Get(attrs, "playOrder")
        case Failure(e) => Failure(e)
        case Success(order) =>
          var np := NavPoint(id, order, |s.stack|, None, None);
          var i := |s.toc|;
          Success(s.(currentNP := Some(i), stack := s.stack + [i], toc := s.toc + [np]))
    else if name == "content" then
      // the right-hand side is evaluated before `currentNP` is dereferenced
      match Get(attrs, "src")
      case Failure(e) => Failure(e)
      case Success(src) =>
        match s.currentNP
        case None => Failure(AttributeError)
        case Some(c) => Success(s.(toc := s.toc[c := s.toc[c].(content := Some(unquote(src)))]))
    else if name == "text" then
      Success(s.(buffer := Some(""), inText := true))
    else Success(s)
  }

  /** `characters`: data goes to the buffer inside a `text` element. */
  function OnChars(s: TocState, data: string): (r: Result<TocState, PyError>)
    requires InRange(s)
    ensures r.Success? ==> InRange(r.value)
  {
    if !s.inText then Success(s)
    else
      match s.buffer
      case None => Failure(AttributeError)
      case Some(b) => Success(s.(buffer := Some(b + data)))
  }

  /** `endElement`: `</navPoint>` pops into `currentNP`; `</text>` stores the buffer. */
  function OnEnd(s: TocState, name: string): (r: Result<TocState, PyError>)
    requires InRange(s)
    ensures r.Success? ==> InRange(r.value)
  {
    if name == "navPoint" then
      if s.stack == [] then Failure(IndexError)
      else Success(s.(currentNP := Some(s.stack[|s.stack| - 1]), stack := s.stack[..|s.stack| - 1]))
    else if name == "text" then
      if s.inText && s.currentNP.Some? then
        match s.buffer
        case None => Failure(AttributeError)
        case Some(b) =>
          var c := s.currentNP.value;
          Success(s.(toc := s.toc[c := s.toc[c].(text := Some(b))], inText := false))
      else Success(s.(inText := false))
    else Success(s)
  }

  function Step(s: TocState, e: Event, unquote: string -> string): (r: Result<TocState, PyError>)
    requires InRange(s)
    ensures r.Success? ==> InRange(r.value)
  {
    match e
    case Start(name, attrs) => OnStart(s, name, attrs, unquote)
    case Chars(data) => OnChars(s, data)
    case End(name) => OnEnd(s, name)
  }

  /** `parser.Parse(...)`: the callbacks in order, stopping at the first exception. */
  function Run(s: TocState, events: seq<Event>, unquote: string -> string): (r: Result<TocState, PyError>)
    requires InRange(s)
    ensures r.Success? ==> InRange(r.value)
    decreases |events|
  {
    if events == [] then Success(s)
    else
      match Step(s, events[0], unquote)
      case Failure(e) => Failure(e)
      case Success(s1) => Run(s1, events[1..], unquote)
  }

  /** The outline `parseToc` returns, or what it raises. */
  function Outline(r: Result<TocState, PyError>): Result<seq<NavPoint>, PyError>
  {
    match r
    case Failure(e) => Failure(e)
    case Success(s) => Success(s.toc)
  }

  /** `TocParser(xml).parseToc()`. */
  function ParseToc(events: seq<Event>, unquote: string -> string): Result<seq<NavPoint>, PyError>
  {
    Outline(Run(Initial, events, unquote))
  }

  class TocParser {
    var currentNP: Option<nat>
    var stack: seq<nat>
    var inText: bool
    var toc: seq<NavPoint>
    var buffer: Option<string>
    const xml: seq<Event>
    /** `urllib.unquote`, not modelled. */
    const unquote: string -> string

    function State(): TocState
      reads this
    {
      TocState(currentNP, stack, inText, toc, buffer)
    }

    predicate Valid()
      reads this
    {
      InRange(State())
    }

    constructor (xmlcontent: seq<Event>, unquoteFn: string -> string)
      ensures Valid() && State() == Initial && xml == xmlcontent && unquote == unquoteFn
    {
      xml, unquote := xmlcontent, unquoteFn;
      currentNP := None;
      stack := [];
      inText := false;
      toc := [];
      buffer := None;
    }

    method StartElement(name: string, attrs: map<string, string>) returns (raised: Option<PyError>)
      requires Valid()
      modifies this
      ensures raised.None? ==> Valid()
      ensures Outcome(State(), raised) == OnStart(old(State()), name, attrs, unquote)
    {
      raised := None;
      if name == "navPoint" {
        if "id" !in attrs {
          return Some(KeyError("id"));
        }
        if "playOrder" !in attrs {
          return Some(KeyError("playOrder"));
        }
        var level := |stack|;
        var np := NavPoint(attrs["id"], attrs["playOrder"], level, None, None);
        currentNP := Some(|toc|);
        stack := stack + [|toc|];
        toc := toc + [np];
      } else if name == "content" {
        if "src" !in attrs {
          return Some(KeyError("src"));
        }
        var src := unquote(attrs["src"]);
        if currentNP.None? {
          return Some(AttributeError);
        }
        var c := currentNP.value;
        toc := toc[c := toc[c].(content := Some(src))];
      } else if name == "text" {
        buffer := Some("");
        inText := true;
      }
    }

    method Characters(data: string) returns (raised: Option<PyError>)
      requires Valid()
      modifies this
      ensures raised.None? ==> Valid()
      ensures Outcome(State(), raised) == OnChars(old(State()), data)
    {
      raised := None;
      if inText {
        if buffer.None? {
          return Some(AttributeError);
        }
        buffer := Some(buffer.value + data);
      }
    }

    method EndElement(name: string) returns (raised: Option<PyError>)
      requires Valid()
      modifies this
      ensures raised.None? ==> Valid()
      ensures Outcome(State(), raised) == OnEnd(old(State()), name)
    {
      raised := None;
      if name == "navPoint" {
        if |stack| == 0 {
          return Some(IndexError);
        }
        currentNP := Some(stack[|stack| - 1]);
        stack := stack[..|stack| - 1];
      } else if name == "text" {
        if inText && currentNP.Some? {
          if buffer.None? {
            return Some(AttributeError);
          }
          var c := currentNP.value;
          toc := toc[c := toc[c].(text := buffer)];
        }
        inText := false;
      }
    }

    /** `parseToc`. */
    method Parse() returns (r: Result<seq<NavPoint>, PyError>)
      requires Valid()
      modifies this
      ensures r == Outline(Run(old(State()), xml, unquote))
    {
      var i := 0;
      while i < |xml|
        invariant 0 <= i <= |xml| && Valid()
        invariant Run(State(), xml[i..], unquote) == Run(old(State()), xml, unquote)
      {
        assert xml[i..][0] == xml[i] && xml[i..][1..] == xml[i + 1..];
        var raised;
        match xml[i] {
          case Start(name, attrs) => raised := StartElement(name, attrs);
          case Chars(data) => raised := Characters(data);
          case End(name) => raised := EndElement(name);
        }
        if raised.Some? {
          return Failure(raised.value);
        }
        i := i + 1;
      }
      return Success(toc);
    }
  }

  // ---------------------------------------------------------------------
  // Properties
  // ---------------------------------------------------------------------

  function Levels(toc: seq<NavPoint>): (r: seq<int>)
    ensures |r| == |toc| && forall i | 0 <= i < |toc| :: r[i] == toc[i].level
  {
    seq(|toc|, i requires 0 <= i < |toc| => toc[i].level)
  }

  function Ids(toc: seq<NavPoint>): (r: seq<string>)
    ensures |r| == |toc| && forall i | 0 <= i < |toc| :: r[i] == toc[i].id
  {
    seq(|toc|, i requires 0 <= i < |toc| => toc[i].id)
  }

  /**
   * The reference outline: walking the events with a depth counter, each
   * `navPoint` start tag contributes the number of `navPoint` elements open
   * around it.
   */
  function NavLevels(depth: int, events: seq<Event>): seq<int>
    decreases |events|
  {
    if events == [] then []
    else if IsStart(events[0], "navPoint") then [depth] + NavLevels(depth + 1, events[1..])
    else if IsEnd(events[0], "navPoint") then NavLevels(depth - 1, events[1..])
    else NavLevels(depth, events[1..])
  }

  /** The `id`s of the `navPoint` start tags, in document order. */
  function NavIds(events: seq<Event>): seq<string>
  {
    if events == [] then []
    else if IsStart(events[0], "navPoint") && "id" in events[0].attrs then [events[0].attrs["id"]] + NavIds(events[1..])
    else NavIds(events[1..])
  }

  /** Storing a content or a text into an entry leaves ids and levels alone. */
  lemma UpdateKeepsHeads(toc: seq<NavPoint>, c: nat, np: NavPoint)
    requires c < |toc| && np.id == toc[c].id && np.level == toc[c].level
    ensures Levels(toc[c := np]) == Levels(toc) && Ids(toc[c := np]) == Ids(toc)
  {
  }

  lemma AppendHeads(toc: seq<NavPoint>, np: NavPoint)
    ensures Levels(toc + [np]) == Levels(toc) + [np.level] && Ids(toc + [np]) == Ids(toc) + [np.id]
  {
  }

  /** A `navPoint` start tag appends one entry, one level below the open ones, and opens it. */
  lemma OpenHeads(s: TocState, e: Event, unquote: string -> string)
    requires InRange(s) && IsStart(e, "navPoint") && Step(s, e, unquote).Success?
    ensures var s1 := Step(s, e, unquote).value;
      && Levels(s1.toc) == Levels(s.toc) + [|s.stack|]
      && Ids(s1.toc) == Ids(s.toc) + [e.attrs["id"]]
      && |s1.stack| == |s.stack| + 1
  {
    var s1 := Step(s, e, unquote).value;
    AppendHeads(s.toc, s1.toc[|s.toc|]);
  }

  /** Any other event leaves ids and levels alone; only `</navPoint>` changes the depth. */
  lemma OtherHeads(s: TocState, e: Event, unquote: string -> string)
    requires InRange(s) && !IsStart(e, "navPoint") && Step(s, e, unquote).Success?
    ensures var s1 := Step(s, e, unquote).value;
      && Levels(s1.toc) == Levels(s.toc)
      && Ids(s1.toc) == Ids(s.toc)
      && |s1.stack| == |s.stack| - (if IsEnd(e, "navPoint") then 1 else 0)
  {
    var s1 := Step(s, e, unquote).value;
    if s1.toc != s.toc {
      var c := s.currentNP.value;
      UpdateKeepsHeads(s.toc, c, s1.toc[c]);
      assert s1.toc == s.toc[c := s1.toc[c]];
    }
  }

  /** Splicing one reference entry in front of the rest of the reference. */
  lemma ShiftHeads(levels: seq<int>, ids: seq<string>, depth: int, id: string, events: seq<Event>)
    requires events != [] && IsStart(events[0], "navPoint") && "id" in events[0].attrs && events[0].attrs["id"] == id
    ensures levels + [depth] + NavLevels(depth + 1, events[1..]) == levels + NavLevels(depth, events)
    ensures ids + [id] + NavIds(events[1..]) == ids + NavIds(events)
  {
    assert levels + [depth] + NavLevels(depth + 1, events[1..]) == levels + ([depth] + NavLevels(depth + 1, events[1..]));
    assert ids + [id] + NavIds(events[1..]) == ids + ([id] + NavIds(events[1..]));
  }

  /** One event: what it adds to the outline is what the reference adds for it. */
  lemma StepHeads(s: TocState, events: seq<Event>, unquote: string -> string)
    requires InRange(s) && events != [] && Step(s, events[0], unquote).Success?
    ensures var s1 := Step(s, events[0], unquote).value;
      && Levels(s1.toc) + NavLevels(|s1.stack|, events[1..]) == Levels(s.toc) + NavLevels(|s.stack|, events)
      && Ids(s1.toc) + NavIds(events[1..]) == Ids(s.toc) + NavIds(events)
  {
    var e := events[0];
    if IsStart(e, "navPoint") {
      OpenHeads(s, e, unquote);
      ShiftHeads(Levels(s.toc), Ids(s.toc), |s.stack|, e.attrs["id"], events);
    } else {
      OtherHeads(s, e, unquote);
    }
  }

  /**
   * Every `navPoint` is appended to the outline in start-tag order, with a
   * level equal to the number of `navPoint` elements open around it.
   */
  lemma {:induction false} RunHeads(s: TocState, events: seq<Event>, unquote: string -> string)
    requires InRange(s)
    ensures var r := Run(s, events, unquote);
      r.Success? ==>
        && Levels(r.value.toc) == Levels(s.toc) + NavLevels(|s.stack|, events)
        && Ids(r.value.toc) == Ids(s.toc) + NavIds(events)
    decreases |events|
  {
    if events == [] {
      assert Levels(s.toc) + [] == Levels(s.toc) && Ids(s.toc) + [] == Ids(s.toc);
    } else if Step(s, events[0], unquote).Success? {
      StepHeads(s, events, unquote);
      RunHeads(Step(s, events[0], unquote).value, events[1..], unquote);
    }
  }

  /** The outline `parseToc` returns: its levels are the reference levels, its ids those of the start tags. */
  lemma OutlineLevels(events: seq<Event>, unquote: string -> string)
    ensures var r := ParseToc(events, unquote);
      r.Success? ==> Levels(r.value) == NavLevels(0, events) && Ids(r.value) == NavIds(events)
  {
    RunHeads(Initial, events, unquote);
    assert Levels([]) == [] && Ids([]) == [];
  }

  /** The stack holds the open `navPoint`s, outermost first: the entry at depth `j` has level `j`. */
  predicate Nested(s: TocState)
  {
    forall j | 0 <= j < |s.stack| :: s.stack[j] < |s.toc| && s.toc[s.stack[j]].level == j
  }

  lemma StepKeepsNested(s: TocState, e: Event, unquote: string -> string)
    requires InRange(s) && Nested(s) && Step(s, e, unquote).Success?
    ensures Nested(Step(s, e, unquote).value)
  {
  }

  lemma {:induction false} RunKeepsNested(s: TocState, events: seq<Event>, unquote: string -> string)
    requires InRange(s) && Nested(s)
    ensures Run(s, events, unquote).Success? ==> Nested(Run(s, events, unquote).value)
    decreases |events|
  {
    if events != [] && Step(s, events[0], unquote).Success? {
      StepKeepsNested(s, events[0], unquote);
      RunKeepsNested(Step(s, events[0], unquote).value, events[1..], unquote);
    }
  }

  /**
   * `</navPoint>` pops the stack and makes the popped entry, the one being
   * closed and not its parent, the current one; its level is the depth left.
   */
  lemma ClosingNavPointSelectsClosed(s: TocState, unquote: string -> string)
    requires InRange(s) && Nested(s) && s.stack != []
    ensures var r := Step(s, End("navPoint"), unquote);
      && r.Success?
      && r.value.currentNP == Some(s.stack[|s.stack| - 1])
      && r.value.stack == s.stack[..|s.stack| - 1]
      && r.value.toc == s.toc
      && r.value.toc[r.value.currentNP.value].level == |r.value.stack|
  {
  }

  /** `</navPoint>` with nothing open raises IndexError. */
  lemma ClosingWithEmptyStackRaises(s: TocState, unquote: string -> string)
    requires InRange(s) && s.stack == []
    ensures Step(s, End("navPoint"), unquote) == Failure(IndexError)
  {
  }

  /** A `content` element before any `navPoint` fails: KeyError without `src`, else on `None`. */
  lemma {:induction false} ContentBeforeNavPointRaises(pre: seq<Event>, attrs: map<string, string>, post: seq<Event>, unquote: string -> string)
    requires forall i | 0 <= i < |pre| :: !IsStart(pre[i], "navPoint")
    requires Run(Initial, pre, unquote).Success?
    ensures Run(Initial, pre + [Start("content", attrs)] + post, unquote)
         == Failure(if "src" in attrs then AttributeError else KeyError("src"))
  {
    NoNavPointNoCurrent(Initial, pre, unquote);
    RunAppend(Initial, pre + [Start("content", attrs)], post, unquote);
    RunAppend(Initial, pre, [Start("content", attrs)], unquote);
  }

  /** Without a `navPoint` start tag nothing is ever current and nothing is open. */
  lemma {:induction false} NoNavPointNoCurrent(s: TocState, events: seq<Event>, unquote: string -> string)
    requires InRange(s) && s.currentNP.None? && s.stack == []
    requires forall i | 0 <= i < |events| :: !IsStart(events[i], "navPoint")
    ensures var r := Run(s, events, unquote);
      r.Success? ==> r.value.currentNP.None? && r.value.stack == []
    decreases |events|
  {
    if events != [] && Step(s, events[0], unquote).Success? {
      NoNavPointNoCurrent(Step(s, events[0], unquote).value, events[1..], unquote);
    }
  }

  /** Running two stretches of events is running the second from where the first left off. */
  lemma {:induction false} RunAppend(s: TocState, a: seq<Event>, b: seq<Event>, unquote: string -> string)
    requires InRange(s)
    ensures Run(s, a + b, unquote)
         == match Run(s, a, unquote) case Failure(e) => Failure(e) case Success(s1) => Run(s1, b, unquote)
    decreases |a|
  {
    if a == [] {
      assert a + b == b;
    } else {
      assert (a + b)[0] == a[0] && (a + b)[1..] == a[1..] + b;
      if Step(s, a[0], unquote).Success? {
        RunAppend(Step(s, a[0], unquote).value, a[1..], b, unquote);
      }
    }
  }

  /**
   * Inside a `text` element the buffer grows by exactly the character data;
   * the flag, the current entry, the stack of open entries and the length of
   * the outline stay.  (A `content` element in between may still set the
   * current entry's `content`.)
   */
  lemma {:induction false} TextCollects(s: TocState, mid: seq<Event>, unquote: string -> string)
    requires InRange(s) && s.inText && s.buffer.Some?
    requires NoTag(mid, "text") && NoTag(mid, "navPoint")
    ensures var r := Run(s, mid, unquote);
      r.Success? ==>
        && r.value.buffer == Some(s.buffer.value + CharData(mid))
        && r.value.inText && r.value.currentNP == s.currentNP
        && r.value.stack == s.stack && |r.value.toc| == |s.toc|
    decreases |mid|
  {
    if mid == [] {
      assert s.buffer.value + "" == s.buffer.value;
    } else if Step(s, mid[0], unquote).Success? {
      var e := mid[0];
      StepInText(s, e, unquote);
      var s1 := Step(s, e, unquote).value;
      TextCollects(s1, mid[1..], unquote);
      var d := if e.Chars? then e.data else "";
      assert CharData(mid) == d + CharData(mid[1..]);
      assert s.buffer.value + (d + CharData(mid[1..])) == s.buffer.value + d + CharData(mid[1..]);
    }
  }

  /** One event inside a `text` element: only character data changes the buffer. */
  lemma StepInText(s: TocState, e: Event, unquote: string -> string)
    requires InRange(s) && s.inText && s.buffer.Some?
    requires !IsStart(e, "text") && !IsEnd(e, "text") && !IsStart(e, "navPoint") && !IsEnd(e, "navPoint")
    requires Step(s, e, unquote).Success?
    ensures var s1 := Step(s, e, unquote).value;
      && s1.buffer == Some(s.buffer.value + if e.Chars? then e.data else "")
      && s1.inText && s1.currentNP == s.currentNP
      && s1.stack == s.stack && |s1.toc| == |s.toc|
  {
    if !e.Chars? {
      assert s.buffer.value + "" == s.buffer.value;
    }
  }

  /**
   * `<text>` ... `</text>` inside a `navPoint`: the current entry's text is
   * all the character data in between.
   */
  lemma TextGoesToCurrent(s: TocState, attrs: map<string, string>, mid: seq<Event>, unquote: string -> string)
    requires InRange(s) && s.currentNP.Some?
    requires NoTag(mid, "text") && NoTag(mid, "navPoint")
    ensures var r := Run(s, [Start("text", attrs)] + mid + [End("text")], unquote);
      r.Success? ==>
        && r.value.currentNP == s.currentNP
        && r.value.toc[s.currentNP.value].text == Some(CharData(mid))
        && !r.value.inText
  {
    var s1 := s.(buffer := Some(""), inText := true);
    assert Step(s, Start("text", attrs), unquote) == Success(s1);
    RunAppend(s, [Start("text", attrs)] + mid, [End("text")], unquote);
    RunAppend(s, [Start("text", attrs)], mid, unquote);
    TextCollects(s1, mid, unquote);
    assert "" + CharData(mid) == CharData(mid);
  }

  /**
   * After a child `navPoint` closes, `currentNP` is the child, so a `content`
   * element that follows it belongs to the child, never to the parent.
   */
  lemma ContentAfterChildGoesToChild(unquote: string -> string)
    ensures var events := [
        Start("navPoint", map["id" := "a", "playOrder" := "1"]),
        Start("navPoint", map["id" := "b", "playOrder" := "2"]),
        End("navPoint"),
        Start("content", map["src" := "c.html"]),
        End("navPoint")];
      var r := ParseToc(events, unquote);
      && r.Success? && |r.value| == 2
      && r.value[0].content.None?
      && r.value[1].content == Some(unquote("c.html"))
  {
    var a := map["id" := "a", "playOrder" := "1"];
    var b := map["id" := "b", "playOrder" := "2"];
    var c := map["src" := "c.html"];
    assert "id" in a && a["id"] == "a" && "playOrder" in a && a["playOrder"] == "1";
    assert "id" in b && b["id"] == "b" && "playOrder" in b && b["playOrder"] == "2";
    assert "src" in c && c["src"] == "c.html";
    var s1 := TocState(Some(0), [0], false, [NavPoint("a", "1", 0, None, None)], None);
    assert Initial.stack + [0] == [0] && Initial.toc + s1.toc == s1.toc;
    assert Step(Initial, Start("navPoint", a), unquote) == Success(s1);
    var np1 := NavPoint("b", "2", 1, None, None);
    var s2 := s1.(currentNP := Some(1), stack := [0, 1], toc := s1.toc + [np1]);
    assert s1.stack + [1] == [0, 1];
    assert Step(s1, Start("navPoint", b), unquote) == Success(s2);
    var s3 := s2.(currentNP := Some(1), stack := [0]);
    assert Step(s2, End("navPoint"), unquote) == Success(s3);
    var s4 := s3.(toc := s3.toc[1 := np1.(content := Some(unquote("c.html")))]);
    assert Step(s3, Start("content", c), unquote) == Success(s4);
    var s5 := s4.(currentNP := Some(0), stack := []);
    assert Step(s4, End("navPoint"), unquote) == Success(s5);
    var events := [Start("navPoint", a), Start("navPoint", b), End("navPoint"), Start("content", c), End("navPoint")];
    assert Run(s5, events[5..], unquote) == Success(s5);
    assert Run(s4, events[4..], unquote) == Success(s5);
    assert Run(s3, events[3..], unquote) == Success(s5);
    assert Run(s2, events[2..], unquote) == Success(s5);
    assert Run(s1, events[1..], unquote) == Success(s5);
  }
}
