/** JavaScript values as the pipe library sees them.
    Several observable behaviours of the library hinge on `if (x)` checks,
    so JavaScript truthiness is spelled out as the predicate `Truthy`. */
module JsValue {

  datatype Option<+T> = None | Some(value: T)

  /** A callback (consumer) is identified by an opaque id; calling it is an
      event appended to a trace. */
  type ConsumerId = nat

  /** The values that flow through a pipe. Numbers are integers (NaN and
      fractional numbers are not modelled); objects, functions, thenables and
      error objects are identified by an opaque id or message. */
  datatype Value =
    | Undefined
    | Null
    | Bool(b: bool)
    | Num(n: int)
    | Str(s: string)
    | Obj(id: nat)
    | Fn(fid: ConsumerId)
    | Thenable(tid: nat)
    | Error(message: string)

  /** JavaScript's `if (x)`: undefined, null, false, 0 and '' are falsy. */
  predicate Truthy(v: Value)
  {
    match v
    case Undefined => false
    case Null => false
    case Bool(b) => b
    case Num(n) => n != 0
    case Str(s) => s != ""
    case _ => true
  }

  /** The error a call of a non-function throws. */
  const TypeError: Value := Error("TypeError")

  /** One invocation of consumer `consumer` with argument `arg`. */
  datatype Call = Call(consumer: ConsumerId, arg: Value)

  /** Consumer `k` called once with each of `vs`, in order. */
  function CallsTo(k: ConsumerId, vs: seq<Value>): (calls: seq<Call>)
    ensures |calls| == |vs|
    ensures forall i :: 0 <= i < |vs| ==> calls[i] == Call(k, vs[i])
  {
    if vs == [] then [] else [Call(k, vs[0])] + CallsTo(k, vs[1..])
  }

  lemma {:induction false} CallsToSnoc(k: ConsumerId, vs: seq<Value>, v: Value)
    ensures CallsTo(k, vs + [v]) == CallsTo(k, vs) + [Call(k, v)]
  {
    if vs != [] {
      assert (vs + [v])[1..] == vs[1..] + [v];
      CallsToSnoc(k, vs[1..], v);
    }
  }

  /** Each of the consumers `ks` called once with `v`, in order. */
  function CallsWith(ks: seq<ConsumerId>, v: Value): (calls: seq<Call>)
    ensures |calls| == |ks|
    ensures forall i :: 0 <= i < |ks| ==> calls[i] == Call(ks[i], v)
  {
    if ks == [] then [] else [Call(ks[0], v)] + CallsWith(ks[1..], v)
  }

  /** One call a producer (user code handed to `pipe`) makes while it
      runs: on its `resolve` or on its `reject`. A run of the producer is
      the sequence of its synchronous calls, in order; a producer that
      settles nothing is the empty sequence. A result that is a thenable
      is awaited by `processResultValue` (pipe.js:4-17), which happens
      outside this model; any other result is handed on at once. */
  datatype ProducerCall = ResolvesWith(result: Value) | RejectsWith(error: Value)

  /** The results a run resolves with that are handed on at once. */
  function PlainResults(cs: seq<ProducerCall>): (vs: seq<Value>)
    ensures |vs| <= |cs|
    ensures forall i :: 0 <= i < |vs| ==> !vs[i].Thenable?
  {
    if cs == [] then []
    else
      var c := cs[|cs| - 1];
      PlainResults(cs[..|cs| - 1]) + (if c.ResolvesWith? && !c.result.Thenable? then [c.result] else [])
  }

  /** The errors a run rejects with. */
  function Errors(cs: seq<ProducerCall>): (es: seq<Value>)
    ensures |es| <= |cs|
  {
    if cs == [] then []
    else
      var c := cs[|cs| - 1];
      Errors(cs[..|cs| - 1]) + (if c.RejectsWith? then [c.error] else [])
  }

  /** The thenables a run resolves with. */
  function AwaitedResults(cs: seq<ProducerCall>): (ts: seq<Value>)
    ensures forall i :: 0 <= i < |ts| ==> ts[i].Thenable?
  {
    if cs == [] then []
    else
      var c := cs[|cs| - 1];
      AwaitedResults(cs[..|cs| - 1]) + (if c.ResolvesWith? && c.result.Thenable? then [c.result] else [])
  }

  /** One more call adds its result to exactly one of the three. */
  lemma ProducerCallsSnoc(pre: seq<ProducerCall>, c: ProducerCall)
    ensures PlainResults(pre + [c]) == PlainResults(pre) + (if c.ResolvesWith? && !c.result.Thenable? then [c.result] else [])
    ensures Errors(pre + [c]) == Errors(pre) + (if c.RejectsWith? then [c.error] else [])
    ensures AwaitedResults(pre + [c]) == AwaitedResults(pre) + (if c.ResolvesWith? && c.result.Thenable? then [c.result] else [])
  {
    assert (pre + [c])[..|pre|] == pre;
  }
}
