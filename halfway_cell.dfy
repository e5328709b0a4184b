/** The cells of pipe.halfway.monadic.stream.js. Each side of a stage
    (resolve or reject) is one closure slot, `state.performResolve` or
    `state.performReject`, plus a flag `resolved` / `rejected`. The slot
    holds either a consumer that is waiting for a value, or a delivery
    closure `cb => { cb(value); flag = true }` that is waiting for a
    consumer. A closure is always truthy, so unlike pipe.js the presence
    test does not depend on the value. */
module HalfwayCell {
  import opened JsValue

  /** What a slot can hold: a registered callback, or the closure that
      delivers a pending value to whatever it is called with. */
  datatype Callable = Consumer(k: ConsumerId) | Delivery(v: Value)

  datatype Slot = Vacant | Holds(f: Callable)

  /** One side of a stage: the slot and its flag. */
  datatype Side = Side(slot: Slot, flag: bool)

  const Fresh: Side := Side(Vacant, false)

  datatype Invocation = Invoked(call: Call) | ThrewTypeError

  /** Calling what a slot holds with `arg`. A delivery closure calls its
      argument, which throws a TypeError unless it is a function. */
  function Invoke(f: Callable, arg: Value): (r: Invocation)
    ensures r.ThrewTypeError? <==> f.Delivery? && !arg.Fn?
    ensures r.Invoked? ==> r.call.arg == (if f.Consumer? then arg else f.v)
  {
    match f
    case Consumer(k) => Invoked(Call(k, arg))
    case Delivery(v) => if arg.Fn? then Invoked(Call(arg.fid, v)) else ThrewTypeError
  }

  /** The outcome of one operation on a side: the new side, the callbacks
      it made, and whether it threw. */
  datatype Feed = Feed(side: Side, calls: seq<Call>, threw: bool)

  /** `handlePerformResolve` / `handlePerformReject` (lines 23-44): call
      the slot with the value and set the flag, or park the value in a
      delivery closure. */
  function Deposit(s: Side, v: Value): (r: Feed)
    ensures s.slot.Vacant? ==> r == Feed(Side(Holds(Delivery(v)), s.flag), [], false)
    ensures s.slot.Holds? ==> r.side.slot == s.slot
    ensures s.slot.Holds? && s.slot.f.Consumer? ==> r == Feed(s.(flag := true), [Call(s.slot.f.k, v)], false)
    ensures s.slot.Holds? && s.slot.f.Delivery? && v.Fn? ==> r == Feed(s.(flag := true), [Call(v.fid, s.slot.f.v)], false)
    ensures r.threw <==> s.slot.Holds? && s.slot.f.Delivery? && !v.Fn?
    ensures r.threw ==> r.side == s && r.calls == []
  {
    match s.slot
    case Vacant => Feed(Side(Holds(Delivery(v)), s.flag), [], false)
    case Holds(f) =>
      match Invoke(f, v)
      case Invoked(c) => Feed(s.(flag := true), [c], false)
      case ThrewTypeError => Feed(s, [], true)
  }

  /** Registering callback `k` on a side (`pipeUpstream.resolve`, lines
      93-96; the reject side of `generateUpstream`, lines 63-66): hand it
      to the slot, or store it. Handing it to a delivery closure sets the
      flag; handing it to a stored consumer calls that consumer with the
      new callback as its argument. */
  function Withdraw(s: Side, k: ConsumerId): (r: Feed)
    ensures !r.threw
    ensures s.slot.Vacant? ==> r == Feed(Side(Holds(Consumer(k)), s.flag), [], false)
    ensures s.slot.Holds? ==> r.side.slot == s.slot && |r.calls| == 1
    ensures s.slot.Holds? && s.slot.f.Delivery? ==> r == Feed(s.(flag := true), [Call(k, s.slot.f.v)], false)
  {
    match s.slot
    case Vacant => Feed(Side(Holds(Consumer(k)), s.flag), [], false)
    case Holds(f) =>
      match f
      case Consumer(k0) => Feed(s, [Call(k0, Fn(k))], false)
      case Delivery(v) => Feed(s.(flag := true), [Call(k, v)], false)
  }

  datatype SideOp = Put(v: Value) | Take(k: ConsumerId)

  function SideStep(s: Side, op: SideOp): Feed
  {
    match op
    case Put(v) => Deposit(s, v)
    case Take(k) => Withdraw(s, k)
  }

  /** A run of operations on one side; a throw does not undo the state, so
      the run goes on past it. */
  function SideRun(s: Side, ops: seq<SideOp>): (r: Feed)
  {
    if ops == [] then Feed(s, [], false)
    else
      var before := SideRun(s, ops[..|ops| - 1]);
      var f := SideStep(before.side, ops[|ops| - 1]);
      Feed(f.side, before.calls + f.calls, before.threw || f.threw)
  }

  /** Whatever first fills a slot stays there for good. */
  lemma {:induction false} SlotNeverCleared(s: Side, ops: seq<SideOp>)
    requires s.slot.Holds?
    ensures SideRun(s, ops).side.slot == s.slot
  {
    if ops != [] {
      SlotNeverCleared(s, ops[..|ops| - 1]);
    }
  }

  /** The first operation on a fresh side decides the slot's content for
      the rest of the stage's life. */
  lemma FirstOperationFillsSlot(ops: seq<SideOp>)
    requires ops != []
    ensures SideRun(Fresh, ops).side.slot ==
      match ops[0]
      case Put(v) => Holds(Delivery(v))
      case Take(k) => Holds(Consumer(k))
  {
    var first := SideRun(Fresh, [ops[0]]).side;
    assert [ops[0]][..0] == [];
    assert first.slot.Holds?;
    var rest := ops[1..];
    SideRunAppend(Fresh, [ops[0]], rest);
    assert [ops[0]] + rest == ops;
    SlotNeverCleared(first, rest);
  }

  lemma {:induction false} SideRunAppend(s: Side, a: seq<SideOp>, b: seq<SideOp>)
    ensures SideRun(s, a + b).side == SideRun(SideRun(s, a).side, b).side
    ensures SideRun(s, a + b).calls == SideRun(s, a).calls + SideRun(SideRun(s, a).side, b).calls
  {
    if b == [] {
      assert a + b == a;
    } else {
      var b' := b[..|b| - 1];
      assert (a + b)[..|a + b| - 1] == a + b';
      SideRunAppend(s, a, b');
    }
  }

  /** The flags are never reset. */
  lemma {:induction false} FlagNeverReset(s: Side, ops: seq<SideOp>)
    requires s.flag
    ensures SideRun(s, ops).side.flag
  {
    if ops != [] {
      FlagNeverReset(s, ops[..|ops| - 1]);
    }
  }

  /** The flags are never read: a run makes the same calls and throws the
      same way whatever the flag was, and leaves the same slot. */
  lemma {:induction false} FlagNeverRead(sl: Slot, b: bool, b': bool, ops: seq<SideOp>)
    ensures SideRun(Side(sl, b), ops).calls == SideRun(Side(sl, b'), ops).calls
    ensures SideRun(Side(sl, b), ops).threw == SideRun(Side(sl, b'), ops).threw
    ensures SideRun(Side(sl, b), ops).side.slot == SideRun(Side(sl, b'), ops).side.slot
  {
    if ops != [] {
      FlagNeverRead(sl, b, b', ops[..|ops| - 1]);
    }
  }

  /** A value and a consumer meet whichever arrives first, falsy values
      included, and the meeting sets the flag. */
  lemma ValueMeetsConsumer(v: Value, k: ConsumerId)
    ensures SideRun(Fresh, [Put(v), Take(k)]).calls == [Call(k, v)]
    ensures SideRun(Fresh, [Take(k), Put(v)]).calls == [Call(k, v)]
    ensures SideRun(Fresh, [Put(v), Take(k)]).side.flag
    ensures SideRun(Fresh, [Take(k), Put(v)]).side.flag
    ensures !SideRun(Fresh, [Put(v), Take(k)]).threw && !SideRun(Fresh, [Take(k), Put(v)]).threw
  {
    assert [Put(v), Take(k)][..1] == [Put(v)];
    assert [Take(k), Put(v)][..1] == [Take(k)];
    assert [Put(v)][..0] == [] && [Take(k)][..0] == [];
    var pending := Side(Holds(Delivery(v)), false);
    var waiting := Side(Holds(Consumer(k)), false);
    assert SideRun(Fresh, [Put(v)]) == Feed(pending, [], false);
    assert SideRun(Fresh, [Take(k)]) == Feed(waiting, [], false);
    assert Withdraw(pending, k) == Feed(pending.(flag := true), [Call(k, v)], false);
    assert Deposit(waiting, v) == Feed(waiting.(flag := true), [Call(k, v)], false);
  }

  function Puts(vs: seq<Value>): (ops: seq<SideOp>)
    ensures |ops| == |vs|
    ensures forall i :: 0 <= i < |vs| ==> ops[i] == Put(vs[i])
  {
    if vs == [] then [] else Puts(vs[..|vs| - 1]) + [Put(vs[|vs| - 1])]
  }

  function Takes(ks: seq<ConsumerId>): (ops: seq<SideOp>)
    ensures |ops| == |ks|
    ensures forall i :: 0 <= i < |ks| ==> ops[i] == Take(ks[i])
  {
    if ks == [] then [] else Takes(ks[..|ks| - 1]) + [Take(ks[|ks| - 1])]
  }

  /** A consumer that arrived first receives every later value. */
  lemma {:induction false} ConsumerReceivesEveryValue(k: ConsumerId, b: bool, vs: seq<Value>)
    ensures SideRun(Side(Holds(Consumer(k)), b), Puts(vs)).calls == CallsTo(k, vs)
    ensures !SideRun(Side(Holds(Consumer(k)), b), Puts(vs)).threw
  {
    if vs != [] {
      var vs' := vs[..|vs| - 1];
      assert Puts(vs)[..|vs| - 1] == Puts(vs');
      ConsumerReceivesEveryValue(k, b, vs');
      SlotNeverCleared(Side(Holds(Consumer(k)), b), Puts(vs'));
      assert vs == vs' + [vs[|vs| - 1]];
      CallsToSnoc(k, vs', vs[|vs| - 1]);
    }
  }

  /** A value that arrived first is handed to every later consumer. */
  lemma {:induction false} ValueReachesEveryConsumer(v: Value, b: bool, ks: seq<ConsumerId>)
    ensures SideRun(Side(Holds(Delivery(v)), b), Takes(ks)).calls == CallsWith(ks, v)
    ensures !SideRun(Side(Holds(Delivery(v)), b), Takes(ks)).threw
  {
    if ks != [] {
      var ks' := ks[..|ks| - 1];
      assert Takes(ks)[..|ks| - 1] == Takes(ks');
      ValueReachesEveryConsumer(v, b, ks');
      SlotNeverCleared(Side(Holds(Delivery(v)), b), Takes(ks'));
      assert CallsWith(ks, v) == CallsWith(ks', v) + [Call(ks[|ks| - 1], v)];
    }
  }

  /** Capacity one: a second value arriving before any consumer is called
      as if it were a consumer of the first; unless it is a function this
      throws a TypeError. */
  lemma SecondValueIsCalled(v: Value, w: Value)
    ensures var r := SideRun(Fresh, [Put(v), Put(w)]);
      && r.side.slot == Holds(Delivery(v))
      && (w.Fn? ==> r.calls == [Call(w.fid, v)] && !r.threw)
      && (!w.Fn? ==> r.calls == [] && r.threw)
  {
    assert [Put(v), Put(w)][..1] == [Put(v)];
    assert [Put(v)][..0] == [];
    var pending := Side(Holds(Delivery(v)), false);
    assert SideRun(Fresh, [Put(v)]) == Feed(pending, [], false);
    assert SideRun(Fresh, [Put(v), Put(w)]).side.slot == Deposit(pending, w).side.slot;
  }

  /** A stage's two sides. */
  datatype Stage = Stage(resolve: Side, reject: Side)

  /** What `pipeUpstream.reject` (lines 97-103) does: register on the
      reject side and, when the slot was vacant, also forward the callback
      to the previous upstream. `forwards` lists the callbacks forwarded. */
  datatype RejectOut = RejectOut(side: Side, calls: seq<Call>, forwards: seq<ConsumerId>)

  function UpstreamRejectStep(s: Side, k: ConsumerId): (r: RejectOut)
    ensures r.forwards == if s.slot.Vacant? then [k] else []
    ensures r.side == Withdraw(s, k).side && r.calls == Withdraw(s, k).calls
  {
    var w := Withdraw(s, k);
    RejectOut(w.side, w.calls, if s.slot.Vacant? then [k] else [])
  }

  /** Deposits and registrations on the reject side of a pipe stage, with
      every callback forwarded upstream, in order. */
  function RejectRun(s: Side, ops: seq<SideOp>): (r: RejectOut)
  {
    if ops == [] then RejectOut(s, [], [])
    else
      var before := RejectRun(s, ops[..|ops| - 1]);
      match ops[|ops| - 1]
      case Put(e) =>
        var f := Deposit(before.side, e);
        RejectOut(f.side, before.calls + f.calls, before.forwards)
      case Take(k) =>
        var o := UpstreamRejectStep(before.side, k);
        RejectOut(o.side, before.calls + o.calls, before.forwards + o.forwards)
  }

  /** The slot is filled by the first operation and never emptied, so of
      all the registrations only one that comes first is forwarded, and it
      is forwarded exactly once. */
  lemma {:induction false} ForwardedOnlyIfFirst(s: Side, ops: seq<SideOp>)
    requires s.slot.Vacant?
    ensures RejectRun(s, ops).forwards == if ops != [] && ops[0].Take? then [ops[0].k] else []
    ensures ops != [] ==> RejectRun(s, ops).side.slot.Holds?
  {
    if ops != [] {
      var init := ops[..|ops| - 1];
      ForwardedOnlyIfFirst(s, init);
      if init != [] {
        assert init[0] == ops[0];
      }
    }
  }

  /** How a `then` callback wrapper ends (lines 118-129): the bound
      callback returns a value or throws. */
  datatype Outcome = Returned(result: Value) | Threw(error: Value)

  /** The wrapper's effect on the new stage, the calls it causes and
      whether an exception escapes it. */
  datatype ThenOut = ThenOut(stage: Stage, calls: seq<Call>, escaped: bool)

  /** A plain result goes to the resolve side. Anything thrown, by the
      callback or by that deposit, goes to the reject side; only a throw
      from the reject side itself escapes. A thenable result is awaited,
      which is outside this model. */
  function ThenRun(st: Stage, o: Outcome): (r: ThenOut)
  {
    match o
    case Returned(v) =>
      if v.Thenable? then ThenOut(st, [], false)
      else
        var f := Deposit(st.resolve, v);
        if !f.threw then ThenOut(st.(resolve := f.side), f.calls, false)
        else
          var g := Deposit(st.reject, TypeError);
          ThenOut(Stage(f.side, g.side), f.calls + g.calls, g.threw)
    case Threw(e) =>
      var g := Deposit(st.reject, e);
      ThenOut(st.(reject := g.side), g.calls, g.threw)
  }

  /** An exception thrown by the bound callback ends up on the reject
      side instead of escaping, unless the reject slot already holds a
      pending error, which then calls the new error. The resolve side is
      untouched. */
  lemma ThenCatches(st: Stage, e: Value)
    ensures ThenRun(st, Threw(e)).stage.resolve == st.resolve
    ensures ThenRun(st, Threw(e)).stage.reject == Deposit(st.reject, e).side
    ensures ThenRun(st, Threw(e)).escaped <==> st.reject.slot.Holds? && st.reject.slot.f.Delivery? && !e.Fn?
    ensures st.reject.slot.Vacant? ==> ThenRun(st, Threw(e)).stage.reject.slot == Holds(Delivery(e))
    ensures st.reject.slot.Holds? && st.reject.slot.f.Consumer? ==>
      ThenRun(st, Threw(e)).calls == [Call(st.reject.slot.f.k, e)]
  {
  }

  /** A plain result reaches the resolve side; when that side cannot take
      it (a value is already pending), a TypeError goes to the reject side
      and the resolve side is left as it was. */
  lemma ThenForwardsResult(st: Stage, v: Value)
    requires !v.Thenable?
    ensures var r := ThenRun(st, Returned(v));
      && r.stage.resolve.slot == Deposit(st.resolve, v).side.slot
      && (!Deposit(st.resolve, v).threw ==> r.stage.reject == st.reject && !r.escaped)
      && (Deposit(st.resolve, v).threw ==>
            r.stage.resolve == st.resolve && r.stage.reject == Deposit(st.reject, TypeError).side)
  {
  }

  /** The object behind a pipe stage: its `state` (lines 112, 23-44),
      `currentUpstream` (lines 90-106) and the wrapper `then` registers
      upstream (lines 118-129). `calls` is every callback it has made,
      `forwarded` every reject callback handed to the previous upstream. */
  class PipeState {
    var performResolve: Slot
    var performReject: Slot
    var resolved: bool
    var rejected: bool
    var calls: seq<Call>
    var forwarded: seq<ConsumerId>

    function State(): Stage
      reads this
    {
      Stage(Side(performResolve, resolved), Side(performReject, rejected))
    }

    constructor ()
      ensures State() == Stage(Fresh, Fresh)
      ensures calls == [] && forwarded == []
    {
      performResolve, performReject := Vacant, Vacant;
      resolved, rejected := false, false;
      calls, forwarded := [], [];
    }

    method SetResolve(s: Side)
      modifies this
      ensures State() == old(State()).(resolve := s)
      ensures calls == old(calls) && forwarded == old(forwarded)
    {
      performResolve, resolved := s.slot, s.flag;
    }

    method SetReject(s: Side)
      modifies this
      ensures State() == old(State()).(reject := s)
      ensures calls == old(calls) && forwarded == old(forwarded)
    {
      performReject, rejected := s.slot, s.flag;
    }

    /** `handlePerformResolve(state, value)`; `threw` when the call into
        the slot threw a TypeError. */
    method HandlePerformResolve(v: Value) returns (threw: bool)
      modifies this
      ensures State().resolve == Deposit(old(State()).resolve, v).side
      ensures State().reject == old(State()).reject
      ensures calls == old(calls) + Deposit(old(State()).resolve, v).calls
      ensures threw == Deposit(old(State()).resolve, v).threw
      ensures forwarded == old(forwarded)
    {
      match performResolve {
        case Vacant =>
          performResolve := Holds(Delivery(v));
          threw := false;
        case Holds(f) =>
          match Invoke(f, v) {
            case Invoked(c) =>
              calls := calls + [c];
              resolved := true;
              threw := false;
            case ThrewTypeError =>
              threw := true;
          }
      }
    }

    /** `handlePerformReject(state, error)`. */
    method HandlePerformReject(e: Value) returns (threw: bool)
      modifies this
      ensures State().reject == Deposit(old(State()).reject, e).side
      ensures State().resolve == old(State()).resolve
      ensures calls == old(calls) + Deposit(old(State()).reject, e).calls
      ensures threw == Deposit(old(State()).reject, e).threw
      ensures forwarded == old(forwarded)
    {
      match performReject {
        case Vacant =>
          performReject := Holds(Delivery(e));
          threw := false;
        case Holds(f) =>
          match Invoke(f, e) {
            case Invoked(c) =>
              calls := calls + [c];
              rejected := true;
              threw := false;
            case ThrewTypeError =>
              threw := true;
          }
      }
    }

    /** `currentUpstream.resolve(k)`. */
    method UpstreamResolve(k: ConsumerId)
      modifies this
      ensures State().resolve == Withdraw(old(State()).resolve, k).side
      ensures State().reject == old(State()).reject
      ensures calls == old(calls) + Withdraw(old(State()).resolve, k).calls
      ensures forwarded == old(forwarded)
    {
      var w := Withdraw(State().resolve, k);
      SetResolve(w.side);
      calls := calls + w.calls;
    }

    /** `currentUpstream.reject(k)`. */
    method UpstreamReject(k: ConsumerId)
      modifies this
      ensures var o := UpstreamRejectStep(old(State()).reject, k);
        && State() == old(State()).(reject := o.side)
        && calls == old(calls) + o.calls
        && forwarded == old(forwarded) + o.forwards
    {
      var o := UpstreamRejectStep(State().reject, k);
      SetReject(o.side);
      calls := calls + o.calls;
      forwarded := forwarded + o.forwards;
    }

    /** The wrapper registered by `then` runs with the bound callback's
        outcome; `escaped` when an exception leaves it. */
    method ThenCallback(o: Outcome) returns (escaped: bool)
      modifies this
      ensures State() == ThenRun(old(State()), o).stage
      ensures calls == old(calls) + ThenRun(old(State()), o).calls
      ensures escaped == ThenRun(old(State()), o).escaped
      ensures forwarded == old(forwarded)
    {
      match o {
        case Returned(v) =>
          if v.Thenable? {
            escaped := false;
          } else {
            var threw := HandlePerformResolve(v);
            if threw {
              escaped := HandlePerformReject(TypeError);
            } else {
              escaped := false;
            }
          }
        case Threw(e) =>
          escaped := HandlePerformReject(e);
      }
    }
  }
}
