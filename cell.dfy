/** The rendezvous cells of pipe.js (pipe.js:19-35).

    A resolve cell and a reject cell have the same shape: a slot for a
    stored value (or error) and a slot for a stored consumer. Supplying one
    side either fires the stored other side or fills its own slot. Slots
    are never cleared, and presence of a value is tested by truthiness, so a
    falsy stored value is never handed to a consumer that arrives late. */
module PipeCell {
  import opened JsValue

  /** The fields of `resolveState` / `rejectState`. An absent `value`
      property reads as `undefined`, so the value slot starts `Undefined`. */
  datatype CellState = CellState(stored: Value, consumer: Option<ConsumerId>)

  const Empty: CellState := CellState(Undefined, None)

  /** The new state and the consumer calls one operation makes. */
  datatype Step = Step(next: CellState, calls: seq<Call>)

  /** One operation on a cell. */
  datatype Op = Supply(v: Value) | Register(k: ConsumerId)

  /** `handleResolveValue` / `handleRejectError`: with a consumer stored,
      call it and change nothing; otherwise store the value. */
  function PutValue(s: CellState, v: Value): (r: Step)
    ensures r.next.consumer == s.consumer
    ensures |r.calls| <= 1
    ensures r.calls != [] <==> s.consumer.Some?
    ensures r.calls != [] ==> r.calls == [Call(s.consumer.value, v)] && r.next == s
    ensures r.calls == [] ==> r.next.stored == v
  {
    match s.consumer
    case Some(k) => Step(s, [Call(k, v)])
    case None => Step(s.(stored := v), [])
  }

  /** `handleResolveCallback` / `handleRejectCallback`: with a truthy value
      stored, call the new consumer with it and do not store it; otherwise
      store the consumer. */
  function PutConsumer(s: CellState, k: ConsumerId): (r: Step)
    ensures r.next.stored == s.stored
    ensures |r.calls| <= 1
    ensures r.calls != [] <==> Truthy(s.stored)
    ensures r.calls != [] ==> r.calls == [Call(k, s.stored)] && r.next == s
    ensures r.calls == [] ==> r.next.consumer == Some(k)
  {
    if Truthy(s.stored) then Step(s, [Call(k, s.stored)])
    else Step(s.(consumer := Some(k)), [])
  }

  function Apply(s: CellState, op: Op): Step
  {
    match op
    case Supply(v) => PutValue(s, v)
    case Register(k) => PutConsumer(s, k)
  }

  /** Runs a sequence of operations, collecting every call in order. */
  function Run(s: CellState, ops: seq<Op>): Step
    decreases |ops|
  {
    if ops == [] then Step(s, [])
    else
      var first := Apply(s, ops[0]);
      var rest := Run(first.next, ops[1..]);
      Step(rest.next, first.calls + rest.calls)
  }

  /** A truthy value and a consumer never wait in the cell together: the
      moment both are present they have met. */
  ghost predicate NoWaitingPair(s: CellState)
  {
    !(Truthy(s.stored) && s.consumer.Some?)
  }

  lemma {:induction false} RunKeepsNoWaitingPair(s: CellState, ops: seq<Op>)
    requires NoWaitingPair(s)
    ensures NoWaitingPair(Run(s, ops).next)
    decreases |ops|
  {
    if ops != [] {
      var first := Apply(s, ops[0]);
      assert NoWaitingPair(first.next);
      RunKeepsNoWaitingPair(first.next, ops[1..]);
    }
  }

  /** Slots are never cleared: once a consumer is stored, some consumer
      stays stored. */
  lemma {:induction false} RunNeverClearsConsumer(s: CellState, ops: seq<Op>)
    requires s.consumer.Some?
    ensures Run(s, ops).next.consumer.Some?
    decreases |ops|
  {
    if ops != [] {
      RunNeverClearsConsumer(Apply(s, ops[0]).next, ops[1..]);
    }
  }

  function Supplies(vs: seq<Value>): (ops: seq<Op>)
    ensures |ops| == |vs|
    ensures forall i :: 0 <= i < |vs| ==> ops[i] == Supply(vs[i])
  {
    if vs == [] then [] else [Supply(vs[0])] + Supplies(vs[1..])
  }

  function Registers(ks: seq<ConsumerId>): (ops: seq<Op>)
    ensures |ops| == |ks|
    ensures forall i :: 0 <= i < |ks| ==> ops[i] == Register(ks[i])
  {
    if ks == [] then [] else [Register(ks[0])] + Registers(ks[1..])
  }

  /** A truthy value, once stored, stays stored while consumers register,
      and each of them is called with it at once. */
  lemma {:induction false} StoredValueReachesEveryConsumer(s: CellState, ks: seq<ConsumerId>)
    requires Truthy(s.stored)
    ensures Run(s, Registers(ks)) == Step(s, CallsWith(ks, s.stored))
    decreases |ks|
  {
    if ks != [] {
      assert Registers(ks)[1..] == Registers(ks[1..]);
      StoredValueReachesEveryConsumer(s, ks[1..]);
    }
  }

  /** With a consumer registered, every further supplied value (or error)
      calls that same consumer again, in order, and the cell never
      changes. */
  lemma {:induction false} RegisteredConsumerGetsEveryValue(s: CellState, vs: seq<Value>)
    requires s.consumer.Some?
    ensures Run(s, Supplies(vs)) == Step(s, CallsTo(s.consumer.value, vs))
    decreases |vs|
  {
    if vs != [] {
      assert Supplies(vs)[1..] == Supplies(vs[1..]);
      RegisteredConsumerGetsEveryValue(s, vs[1..]);
    }
  }

  /** Every call a run makes hands a supplied value (or the value already
      stored) to a registered consumer (or the consumer already stored). */
  lemma {:induction false} RunCallsComeFromOps(s: CellState, ops: seq<Op>, c: Call)
    requires c in Run(s, ops).calls
    ensures s.consumer == Some(c.consumer) || Register(c.consumer) in ops
    ensures c.arg == s.stored || Supply(c.arg) in ops
    decreases |ops|
  {
    var first := Apply(s, ops[0]);
    if c !in first.calls {
      RunCallsComeFromOps(first.next, ops[1..], c);
      assert ops == [ops[0]] + ops[1..];
    }
  }

  /** At most one call per operation. */
  lemma {:induction false} RunCallsBounded(s: CellState, ops: seq<Op>)
    ensures |Run(s, ops).calls| <= |ops|
    decreases |ops|
  {
    if ops != [] {
      RunCallsBounded(Apply(s, ops[0]).next, ops[1..]);
    }
  }

  /** A value and a consumer meet in either arrival order, except that a
      falsy value supplied first is never handed to the consumer. */
  lemma ValueThenConsumer(v: Value, k: ConsumerId)
    ensures Run(Empty, [Supply(v), Register(k)]).calls
            == if Truthy(v) then [Call(k, v)] else []
  {
    var ops := [Supply(v), Register(k)];
    var s1 := PutValue(Empty, v).next;
    assert Run(s1, ops[1..]) == Run(s1, [Register(k)]);
    assert Run(PutConsumer(s1, k).next, []).calls == [];
  }

  lemma ConsumerThenValue(v: Value, k: ConsumerId)
    ensures Run(Empty, [Register(k), Supply(v)]).calls == [Call(k, v)]
  {
    var ops := [Register(k), Supply(v)];
    var s1 := PutConsumer(Empty, k).next;
    assert Run(s1, ops[1..]) == Run(s1, [Supply(v)]);
    assert Run(PutValue(s1, v).next, []).calls == [];
  }

  /** A mutable cell object: `resolveState` or `rejectState`. Its `calls`
      field is the trace of consumer invocations it has made. */
  /** A cell together with every call it has made. */
  datatype Trace = Trace(state: CellState, calls: seq<Call>)

  /** A value (or error) supplied to a traced cell. */
  function Feed(t: Trace, v: Value): Trace
  {
    var r := PutValue(t.state, v);
    Trace(r.next, t.calls + r.calls)
  }

  /** A consumer registered on a traced cell. */
  function Attach(t: Trace, k: ConsumerId): Trace
  {
    var r := PutConsumer(t.state, k);
    Trace(r.next, t.calls + r.calls)
  }

  /** Values supplied one after the other. */
  function FeedAll(t: Trace, vs: seq<Value>): Trace
  {
    if vs == [] then t else Feed(FeedAll(t, vs[..|vs| - 1]), vs[|vs| - 1])
  }

  lemma FeedAllSnoc(t: Trace, vs: seq<Value>, v: Value)
    ensures FeedAll(t, vs + [v]) == Feed(FeedAll(t, vs), v)
  {
    assert (vs + [v])[..|vs|] == vs;
  }

  /** With a consumer stored, each supplied value calls it, in order, and
      the cell is left as it was. */
  lemma {:induction false} FeedAllRegistered(t: Trace, vs: seq<Value>)
    requires t.state.consumer.Some?
    ensures FeedAll(t, vs) == Trace(t.state, t.calls + CallsTo(t.state.consumer.value, vs))
  {
    if vs != [] {
      var k, vs', v := t.state.consumer.value, vs[..|vs| - 1], vs[|vs| - 1];
      assert vs == vs' + [v];
      FeedAllRegistered(t, vs');
      FeedAllSnoc(t, vs', v);
      assert PutValue(t.state, v) == Step(t.state, [Call(k, v)]);
      CallsToSnoc(k, vs', v);
      assert t.calls + CallsTo(k, vs' + [v]) == (t.calls + CallsTo(k, vs')) + [Call(k, v)];
    }
  }

  /** With no consumer stored, supplied values call nothing and only the
      last one stays stored. */
  lemma {:induction false} FeedAllUnregistered(t: Trace, vs: seq<Value>)
    requires t.state.consumer.None?
    ensures FeedAll(t, vs) == Trace(if vs == [] then t.state else t.state.(stored := vs[|vs| - 1]), t.calls)
  {
    if vs != [] {
      FeedAllUnregistered(t, vs[..|vs| - 1]);
    }
  }

  class Cell {
    var stored: Value
    var consumer: Option<ConsumerId>
    var calls: seq<Call>

    function State(): CellState
      reads this
    {
      CellState(stored, consumer)
    }

    function Traced(): Trace
      reads this
    {
      Trace(State(), calls)
    }

    /** `{}`: both slots empty, nothing called yet. */
    constructor ()
      ensures State() == Empty && calls == []
    {
      stored := Undefined;
      consumer := None;
      calls := [];
    }

    /** handleResolveValue / handleRejectError. */
    method HandleValue(v: Value)
      modifies this
      ensures State() == PutValue(old(State()), v).next
      ensures calls == old(calls) + PutValue(old(State()), v).calls
      ensures Traced() == Feed(old(Traced()), v)
    {
      if consumer.Some? {
        calls := calls + [Call(consumer.value, v)];
      } else {
        stored := v;
      }
    }

    /** handleResolveCallback / handleRejectCallback. */
    method HandleCallback(k: ConsumerId)
      modifies this
      ensures State() == PutConsumer(old(State()), k).next
      ensures calls == old(calls) + PutConsumer(old(State()), k).calls
      ensures Traced() == Attach(old(Traced()), k)
    {
      if Truthy(stored) {
        calls := calls + [Call(k, stored)];
      } else {
        consumer := Some(k);
      }
    }
  }
}
