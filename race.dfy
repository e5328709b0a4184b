/** `pipe.race` (pipe.js:223-245): the first settlement with a truthy value
    or error wins; a falsy first value does not latch. */
module RaceCombinator {
  import opened JsValue
  import opened Settlements

  /** The closure variables `value` and `error` of `race`'s producer. */
  datatype RaceState = RaceState(value: Value, error: Value)

  const RaceStart: RaceState := RaceState(Undefined, Undefined)

  /** `value || error`: the test that makes later settlements no-ops. */
  predicate Latched(s: RaceState)
  {
    Truthy(s.value) || Truthy(s.error)
  }

  datatype RaceOut = RaceOut(state: RaceState, calls: seq<Settled<Value>>)

  /** The value or error a settlement carries. */
  function Payload(ev: Settlement): Value
  {
    match ev
    case Fulfilled(_, v) => v
    case Failed(e) => e
  }

  /** The call a settlement makes when it is forwarded. */
  function Forward(ev: Settlement): (c: Settled<Value>)
    ensures ev.Fulfilled? <==> c.Resolved?
  {
    match ev
    case Fulfilled(_, v) => Resolved(v)
    case Failed(e) => Rejected(e)
  }

  /** One settlement seen by `race`'s callbacks. */
  function RaceStep(s: RaceState, ev: Settlement): (r: RaceOut)
    ensures Latched(s) ==> r == RaceOut(s, [])
    ensures !Latched(s) ==> r.calls == [Forward(ev)] && (Latched(r.state) <==> Truthy(Payload(ev)))
  {
    if Latched(s) then RaceOut(s, [])
    else match ev
      case Fulfilled(_, v) => RaceOut(s.(value := v), [Resolved(v)])
      case Failed(e) => RaceOut(s.(error := e), [Rejected(e)])
  }

  function RaceRun(s: RaceState, evs: seq<Settlement>): RaceOut
    decreases |evs|
  {
    if evs == [] then RaceOut(s, [])
    else
      var r1 := RaceRun(s, evs[..|evs| - 1]);
      var r2 := RaceStep(r1.state, evs[|evs| - 1]);
      RaceOut(r2.state, r1.calls + r2.calls)
  }

  /** The position of the first settlement with a truthy value or error. */
  function FirstTruthy(evs: seq<Settlement>): (k: nat)
    ensures k <= |evs|
    ensures forall j :: 0 <= j < k ==> !Truthy(Payload(evs[j]))
    ensures k < |evs| ==> Truthy(Payload(evs[k]))
  {
    if evs == [] then 0
    else if Truthy(Payload(evs[0])) then 0
    else 1 + FirstTruthy(evs[1..])
  }

  /** How many settlements `race` forwards: all of them up to and including
      the first truthy one. */
  function Cut(evs: seq<Settlement>): (n: nat)
    ensures n <= |evs|
  {
    if FirstTruthy(evs) < |evs| then FirstTruthy(evs) + 1 else |evs|
  }

  function Forwards(evs: seq<Settlement>): (cs: seq<Settled<Value>>)
    ensures |cs| == |evs|
    ensures forall j :: 0 <= j < |evs| ==> cs[j] == Forward(evs[j])
  {
    if evs == [] then [] else [Forward(evs[0])] + Forwards(evs[1..])
  }

  lemma FirstTruthySnoc(pre: seq<Settlement>, ev: Settlement)
    ensures FirstTruthy(pre + [ev]) ==
      if FirstTruthy(pre) < |pre| then FirstTruthy(pre)
      else if Truthy(Payload(ev)) then |pre| else |pre| + 1
  {
    var evs := pre + [ev];
    var f, f' := FirstTruthy(evs), FirstTruthy(pre);
    assert forall j :: 0 <= j < |pre| ==> evs[j] == pre[j];
    if f' < |pre| {
      assert evs[f'] == pre[f'];
      assert f <= f';
    } else {
      assert f >= |pre|;
      assert evs[|pre|] == ev;
    }
  }

  lemma ForwardsSnoc(pre: seq<Settlement>, ev: Settlement)
    ensures Forwards(pre + [ev]) == Forwards(pre) + [Forward(ev)]
  {
  }

  /** `race` forwards every settlement up to and including the first one
      with a truthy value or error, and ignores all later ones. A falsy
      first value therefore does not latch. */
  lemma {:induction false} RaceForwardsUntilTruthy(evs: seq<Settlement>)
    ensures RaceRun(RaceStart, evs).calls == Forwards(evs[..Cut(evs)])
    ensures Latched(RaceRun(RaceStart, evs).state) <==> FirstTruthy(evs) < |evs|
    decreases |evs|
  {
    if evs != [] {
      var n := |evs|;
      var pre, ev := evs[..n - 1], evs[n - 1];
      assert evs == pre + [ev];
      RaceForwardsUntilTruthy(pre);
      FirstTruthySnoc(pre, ev);
      var r1 := RaceRun(RaceStart, pre);
      var r2 := RaceStep(r1.state, ev);
      assert RaceRun(RaceStart, evs) == RaceOut(r2.state, r1.calls + r2.calls);
      if FirstTruthy(pre) < |pre| {
        assert r2.calls == [];
        assert evs[..Cut(evs)] == pre[..Cut(pre)];
      } else {
        assert Cut(evs) == n && Cut(pre) == n - 1;
        assert evs[..n] == pre + [ev];
        assert pre[..n - 1] == pre;
        ForwardsSnoc(pre, ev);
      }
    }
  }

  /** Among the calls `race` makes, only the last can carry a truthy value
      or error. */
  lemma RaceOnlyLastIsTruthy(evs: seq<Settlement>, k: nat)
    requires k + 1 < |RaceRun(RaceStart, evs).calls|
    ensures !Truthy(match RaceRun(RaceStart, evs).calls[k]
                    case Resolved(v) => v
                    case Rejected(e) => e)
  {
    RaceForwardsUntilTruthy(evs);
    assert RaceRun(RaceStart, evs).calls[k] == Forward(evs[k]);
  }

  /** Where `race`'s item walk stops doing anything: at a nullish item
      (which throws), just after a truthy plain item (which latches), or
      at the end. */
  function RaceStop(items: seq<Value>, i: nat): (r: (nat, bool))
    requires i <= |items|
    ensures i <= r.0 <= |items|
    ensures r.1 ==> r.0 < |items| && Nullish(items[r.0])
    decreases |items| - i
  {
    if i == |items| then (i, false)
    else if Nullish(items[i]) then (i, true)
    else if !items[i].Thenable? && Truthy(items[i]) then (i + 1, false)
    else RaceStop(items, i + 1)
  }

  lemma RaceRunNext(items: seq<Value>, i: nat, s: RaceState)
    requires i < |items|
    ensures items[i].Thenable? ==> RaceRun(s, ItemEvents(items, i + 1)) == RaceRun(s, ItemEvents(items, i))
    ensures !items[i].Thenable? ==>
      var r := RaceRun(s, ItemEvents(items, i));
      var r2 := RaceStep(r.state, Fulfilled(i, items[i]));
      RaceRun(s, ItemEvents(items, i + 1)) == RaceOut(r2.state, r.calls + r2.calls)
  {
    var evs := ItemEvents(items, i + 1);
    if !items[i].Thenable? {
      assert evs[..|evs| - 1] == ItemEvents(items, i);
    }
  }

  lemma RaceStopStep(items: seq<Value>, i: nat)
    requires i < |items|
    ensures Nullish(items[i]) ==> RaceStop(items, i) == (i, true)
    ensures !Nullish(items[i]) && !items[i].Thenable? && Truthy(items[i]) ==> RaceStop(items, i) == (i + 1, false)
    ensures !Nullish(items[i]) && (items[i].Thenable? || !Truthy(items[i])) ==> RaceStop(items, i) == RaceStop(items, i + 1)
  {
  }

  /** The closure variables of `race`'s producer and the calls it made. */
  class Race {
    const items: seq<Value>
    var value: Value
    var error: Value
    /** Calls made to the producer's `resolve` / `reject`. */
    var signals: seq<Settled<Value>>
    /** Indices of the items `then`/`catch` were registered on. */
    var awaiting: seq<nat>

    function State(): RaceState
      reads this
    {
      RaceState(value, error)
    }

    constructor (items: seq<Value>)
      ensures this.items == items && State() == RaceStart && signals == [] && awaiting == []
    {
      this.items := items;
      value, error := Undefined, Undefined;
      signals, awaiting := [], [];
    }

    /** `composeThenFn()(val)`. */
    method OnValue(val: Value)
      modifies this
      ensures State() == RaceStep(old(State()), Fulfilled(0, val)).state
      ensures signals == old(signals) + RaceStep(old(State()), Fulfilled(0, val)).calls
      ensures awaiting == old(awaiting)
    {
      if Truthy(value) || Truthy(error) {
        return;
      }
      value := val;
      signals := signals + [Resolved(val)];
    }

    /** `composeCatchFn()(err)`. */
    method OnError(err: Value)
      modifies this
      ensures State() == RaceStep(old(State()), Failed(err)).state
      ensures signals == old(signals) + RaceStep(old(State()), Failed(err)).calls
      ensures awaiting == old(awaiting)
    {
      if Truthy(value) || Truthy(error) {
        return;
      }
      error := err;
      signals := signals + [Rejected(err)];
    }

    /** The `allItems.forEach` walk, run once when the producer starts.
        Once `value || error` holds, every remaining item returns at once,
        so the walk is written to stop there. */
    method Start() returns (thrown: Option<Value>)
      requires State() == RaceStart
      modifies this
      ensures State() == RaceRun(RaceStart, ItemEvents(items, RaceStop(items, 0).0)).state
      ensures signals == old(signals) + RaceRun(RaceStart, ItemEvents(items, RaceStop(items, 0).0)).calls
      ensures awaiting == old(awaiting) + Thenables(items, RaceStop(items, 0).0)
      ensures thrown == if RaceStop(items, 0).1 then Some(TypeError) else None
    {
      ghost var stop := RaceStop(items, 0);
      ghost var signals0, awaiting0 := signals, awaiting;
      var i := 0;
      thrown := None;
      while i < |items| && !Latched(State())
        invariant WalkedTo(i, stop, signals0, awaiting0)
      {
        if Nullish(items[i]) {
          RaceStopStep(items, i);
          thrown := Some(TypeError);
          return;
        }
        WalkItem(i, stop, signals0, awaiting0);
        i := i + 1;
      }
      assert stop == (i, false);
    }

    /** The walk has handled `items[..i]` and has not thrown. */
    ghost predicate WalkedTo(i: nat, stop: (nat, bool), signals0: seq<Settled<Value>>, awaiting0: seq<nat>)
      reads this
    {
      && i <= |items|
      && State() == RaceRun(RaceStart, ItemEvents(items, i)).state
      && signals == signals0 + RaceRun(RaceStart, ItemEvents(items, i)).calls
      && awaiting == awaiting0 + Thenables(items, i)
      && if Latched(State()) then stop == (i, false) else stop == RaceStop(items, i)
    }

    /** One item of the walk that is not nullish. */
    method WalkItem(i: nat, ghost stop: (nat, bool), ghost signals0: seq<Settled<Value>>, ghost awaiting0: seq<nat>)
      requires i < |items| && !Nullish(items[i]) && !Latched(State())
      requires WalkedTo(i, stop, signals0, awaiting0)
      modifies this
      ensures WalkedTo(i + 1, stop, signals0, awaiting0)
    {
      RaceStopStep(items, i);
      RaceRunNext(items, i, RaceStart);
      if items[i].Thenable? {
        awaiting := awaiting + [i];
      } else {
        OnValue(items[i]);
      }
    }
  }
}
