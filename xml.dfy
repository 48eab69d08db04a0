/**
 * What the Python converter sees of an XML document: the calls expat makes
 * to the handlers, in document order, and the exceptions a handler can
 * raise (which abort the parse and propagate to the caller).
 */
module Xml {
  import opened Wrappers

  /** One handler call: a start tag with its attribute dictionary, character data, an end tag. */
  datatype Event =
    | Start(name: string, attrs: map<string, string>)
    | Chars(data: string)
    | End(name: string)

  /** The Python exceptions the handlers and `convert` can raise. */
  datatype PyError =
    | KeyError(key: string)   // a missing attribute or archive entry
    | IndexError              // `pop` from an empty list
    | AttributeError          // an attribute of None, or an attribute never assigned
    | TypeError               // `str + None`

  /** `attributes[key]`. */
  function Get(attrs: map<string, string>, key: string): (r: Result<string, PyError>)
    ensures key in attrs <==> r.Success?
    ensures r.Success? ==> r.value == attrs[key]
    ensures r.Failure? ==> r.error == KeyError(key)
  {
    if key in attrs then Success(attrs[key]) else Failure(KeyError(key))
  }

  /** A handler's effect seen from outside: the new state, or the exception it raised. */
  function Outcome<S>(s: S, raised: Option<PyError>): (r: Result<S, PyError>)
    ensures r.Success? <==> raised.None?
  {
    if raised.Some? then Failure(raised.value) else Success(s)
  }

  /** The character data of `events`, concatenated. */
  function CharData(events: seq<Event>): string
  {
    if events == [] then ""
    else (if events[0].Chars? then events[0].data else "") + CharData(events[1..])
  }

  lemma {:induction false} CharDataAppend(a: seq<Event>, b: seq<Event>)
    ensures CharData(a + b) == CharData(a) + CharData(b)
  {
    if a == [] {
      assert a + b == b;
    } else {
      assert (a + b)[1..] == a[1..] + b;
      CharDataAppend(a[1..], b);
    }
  }

  predicate IsStart(e: Event, name: string)
  {
    e.Start? && e.name == name
  }

  predicate IsEnd(e: Event, name: string)
  {
    e.End? && e.name == name
  }

  /** No start or end tag named `name` among `events`. */
  predicate NoTag(events: seq<Event>, name: string)
  {
    forall i | 0 <= i < |events| :: !IsStart(events[i], name) && !IsEnd(events[i], name)
  }
}
