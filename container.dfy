/**
 * `ContainerParser`: reads the `full-path` of the `rootfile` element of
 * `META-INF/container.xml` (section 3.5.2.1 of EPUB Open Container Format
 * 3.0.1).  Only a start-element handler is installed.
 */
module Container {
  import opened Wrappers
  import opened Xml

  datatype ContainerState = ContainerState(rootfile: string, buffer: Option<string>)

  /** `__init__`: `rootfile` is "", `buffer` is not yet an attribute. */
  const Initial := ContainerState("", None)

  /** `startElement`: a `rootfile` element resets the buffer and takes its `full-path`. */
  function OnStart(s: ContainerState, name: string, attrs: map<string, string>): Result<ContainerState, PyError>
  {
    if name != "rootfile" then Success(s)
    else
      match Get(attrs, "full-path")
      case Failure(e) => Failure(e)
      case Success(path) => Success(s.(buffer := Some(""), rootfile := path))
  }

  /** One expat callback: only start tags reach a handler. */
  function Step(s: ContainerState, e: Event): Result<ContainerState, PyError>
  {
    match e
    case Start(name, attrs) => OnStart(s, name, attrs)
    case _ => Success(s)
  }

  /** `parser.Parse(...)`: the callbacks in order, stopping at the first exception. */
  function Run(s: ContainerState, events: seq<Event>): Result<ContainerState, PyError>
    decreases |events|
  {
    if events == [] then Success(s)
    else
      match Step(s, events[0])
      case Failure(e) => Failure(e)
      case Success(s1) => Run(s1, events[1..])
  }

  /** What `parseContainer` returns (or raises) for `events`, from state `s`. */
  function Rootfile(r: Result<ContainerState, PyError>): Result<string, PyError>
  {
    match r
    case Failure(e) => Failure(e)
    case Success(s) => Success(s.rootfile)
  }

  /** `ContainerParser(xml).parseContainer()`. */
  function ParseContainer(events: seq<Event>): Result<string, PyError>
  {
    Rootfile(Run(Initial, events))
  }

  class ContainerParser {
    var rootfile: string
    var buffer: Option<string>
    const xml: seq<Event>

    function State(): ContainerState
      reads this
    {
      ContainerState(rootfile, buffer)
    }

    constructor (xmlcontent: seq<Event>)
      ensures State() == Initial && xml == xmlcontent
    {
      rootfile := "";
      buffer := None;
      xml := xmlcontent;
    }

    method StartElement(name: string, attrs: map<string, string>) returns (raised: Option<PyError>)
      modifies this
      ensures Outcome(State(), raised) == OnStart(old(State()), name, attrs)
    {
      raised := None;
      if name == "rootfile" {
        buffer := Some("");
        if "full-path" !in attrs {
          return Some(KeyError("full-path"));
        }
        rootfile := attrs["full-path"];
      }
    }

    /** `parseContainer`. */
    method Parse() returns (r: Result<string, PyError>)
      modifies this
      ensures r == Rootfile(Run(old(State()), xml))
    {
      var i := 0;
      while i < |xml|
        invariant 0 <= i <= |xml|
        invariant Run(State(), xml[i..]) == Run(old(State()), xml)
      {
        assert xml[i..][0] == xml[i] && xml[i..][1..] == xml[i + 1..];
        if xml[i].Start? {
          var raised := StartElement(xml[i].name, xml[i].attrs);
          if raised.Some? {
            return Failure(raised.value);
          }
        }
        i := i + 1;
      }
      return Success(rootfile);
    }
  }

  // ---------------------------------------------------------------------
  // Properties
  // ---------------------------------------------------------------------

  /** A `rootfile` start tag without `full-path`. */
  predicate Missing(e: Event)
  {
    IsStart(e, "rootfile") && "full-path" !in e.attrs
  }

  /** Running two stretches of events is running the second from where the first left off. */
  lemma {:induction false} RunAppend(s: ContainerState, a: seq<Event>, b: seq<Event>)
    ensures Run(s, a + b) == match Run(s, a) case Failure(e) => Failure(e) case Success(s1) => Run(s1, b)
    decreases |a|
  {
    if a == [] {
      assert a + b == b;
    } else {
      assert (a + b)[0] == a[0] && (a + b)[1..] == a[1..] + b;
      if Step(s, a[0]).Success? {
        RunAppend(Step(s, a[0]).value, a[1..], b);
      }
    }
  }

  /** Without `rootfile` elements nothing changes. */
  lemma {:induction false} NoRootfileNoChange(s: ContainerState, events: seq<Event>)
    requires forall i | 0 <= i < |events| :: !IsStart(events[i], "rootfile")
    ensures Run(s, events) == Success(s)
    decreases |events|
  {
    if events != [] {
      NoRootfileNoChange(s, events[1..]);
    }
  }

  /** A document without a `rootfile` element yields "". */
  lemma NoRootfileGivesEmpty(events: seq<Event>)
    requires forall i | 0 <= i < |events| :: !IsStart(events[i], "rootfile")
    ensures ParseContainer(events) == Success("")
  {
    NoRootfileNoChange(Initial, events);
  }

  /** The parse fails exactly when some `rootfile` lacks `full-path`, and then with KeyError('full-path'). */
  lemma {:induction false} FailsIffMissingPath(s: ContainerState, events: seq<Event>)
    ensures Run(s, events).Failure? <==> exists i | 0 <= i < |events| :: Missing(events[i])
    ensures Run(s, events).Failure? ==> Run(s, events).error == KeyError("full-path")
    decreases |events|
  {
    if events != [] {
      if Step(s, events[0]).Success? {
        FailsIffMissingPath(Step(s, events[0]).value, events[1..]);
        if exists i | 0 <= i < |events| :: Missing(events[i]) {
          var i :| 0 <= i < |events| && Missing(events[i]);
          assert i > 0;
          assert Missing(events[1..][i - 1]);
        }
        if exists i | 0 <= i < |events[1..]| :: Missing(events[1..][i]) {
          var i :| 0 <= i < |events[1..]| && Missing(events[1..][i]);
          assert Missing(events[i + 1]);
        }
      } else {
        assert Missing(events[0]);
      }
    }
  }

  /** `parseContainer` raises KeyError exactly when a `rootfile` element has no `full-path`. */
  lemma ContainerKeyError(events: seq<Event>)
    ensures ParseContainer(events).Failure? <==> exists i | 0 <= i < |events| :: Missing(events[i])
    ensures ParseContainer(events).Failure? ==> ParseContainer(events).error == KeyError("full-path")
  {
    FailsIffMissingPath(Initial, events);
  }

  /** When several `rootfile` elements are present, the last one wins. */
  lemma LastRootfileWins(pre: seq<Event>, attrs: map<string, string>, post: seq<Event>)
    requires forall i | 0 <= i < |pre| :: !Missing(pre[i])
    requires "full-path" in attrs
    requires forall i | 0 <= i < |post| :: !IsStart(post[i], "rootfile")
    ensures ParseContainer(pre + [Start("rootfile", attrs)] + post) == Success(attrs["full-path"])
  {
    var e := Start("rootfile", attrs);
    FailsIffMissingPath(Initial, pre);
    var s1 := Run(Initial, pre).value;
    RunAppend(Initial, pre + [e], post);
    RunAppend(Initial, pre, [e]);
    var s2 := s1.(buffer := Some(""), rootfile := attrs["full-path"]);
    assert Run(s1, [e]) == Success(s2) by {
      assert [e][1..] == [];
    }
    NoRootfileNoChange(s2, post);
  }
}
