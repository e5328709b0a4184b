/** `generateUpstream` and `pipe.emit` of pipe.halfway.monadic.stream.js
    (lines 46-88, 196-199). The stage keeps the cells of `HalfwayCell` and
    one more slot, `state.performEmit`, set by the first pull whose
    producer returned a function marked by `pipe.emit`. The emitter is
    foreign code: the model records each time it is invoked and with
    which `next` callback, and takes as a parameter the calls of the
    producer's `resolve` and `reject` it makes during that invocation. */
module HalfwayGenerate {
  import opened JsValue
  import opened HalfwayCell
  import opened FromCursor

  /** Everything `generateUpstream` keeps. `emitter` is `state.performEmit`
      (the id of the emitter it calls), `runs` counts producer runs,
      `invocations` lists the `next` callback of each emitter invocation. */
  datatype Upstream = Upstream(
    resolve: Side,
    reject: Side,
    emitter: Option<ConsumerId>,
    runs: nat,
    invocations: seq<ConsumerId>,
    calls: seq<Call>)

  const Start: Upstream := Upstream(Fresh, Fresh, None, 0, [], [])

  /** An operation's new state and whether it threw. */
  datatype Step = Step(up: Upstream, threw: bool)

  /** Who runs the producer: `next` before the first emit (lines 69-74),
      or `resolve(k)` before the first emit (lines 54-60). */
  datatype Runner = ForNext | ForResolve(k: ConsumerId)

  /** One call the producer makes on its `resolve` or `reject`. A plain
      result goes through `handlePerformResolve` when `next` runs it and
      straight to `k` when `resolve(k)` runs it; an error goes through
      `handlePerformReject` either way; a thenable is awaited. */
  function ProducerStep(u: Upstream, runner: Runner, c: ProducerCall): (r: Step)
    ensures r.up.emitter == u.emitter && r.up.runs == u.runs && r.up.invocations == u.invocations
    ensures r.threw ==> r.up == u
    ensures runner.ForResolve? ==> r.up.resolve == u.resolve
  {
    match c
    case ResolvesWith(v) =>
      if v.Thenable? then Step(u, false)
      else if runner.ForResolve? then Step(u.(calls := u.calls + [Call(runner.k, v)]), false)
      else
        var f := Deposit(u.resolve, v);
        Step(u.(resolve := f.side, calls := u.calls + f.calls), f.threw)
    case RejectsWith(e) =>
      var f := Deposit(u.reject, e);
      Step(u.(reject := f.side, calls := u.calls + f.calls), f.threw)
  }

  /** The producer's calls in order. A call that throws ends the
      producer's run: the exception leaves it, so no later call happens. */
  function ProducerRun(u: Upstream, runner: Runner, cs: seq<ProducerCall>): (r: Step)
    ensures r.up.emitter == u.emitter && r.up.runs == u.runs && r.up.invocations == u.invocations
    ensures runner.ForResolve? ==> r.up.resolve == u.resolve
  {
    if cs == [] then Step(u, false)
    else
      var p := ProducerRun(u, runner, cs[..|cs| - 1]);
      if p.threw then p else ProducerStep(p.up, runner, cs[|cs| - 1])
  }

  /** Nothing the producer does after a call that threw has any effect. */
  lemma {:induction false} ThrowEndsProducer(u: Upstream, runner: Runner, cs: seq<ProducerCall>, more: seq<ProducerCall>)
    requires ProducerRun(u, runner, cs).threw
    ensures ProducerRun(u, runner, cs + more) == ProducerRun(u, runner, cs)
  {
    if more == [] {
      assert cs + more == cs;
    } else {
      var m := more[..|more| - 1];
      assert (cs + more)[..|cs + more| - 1] == cs + m;
      ThrowEndsProducer(u, runner, cs, m);
      assert ProducerRun(u, runner, cs + m).threw;
    }
  }

  /** One invocation of the bound emitter with `next` callback `k`. The
      emitter runs synchronously: besides handing values to `k`, it may
      call the `resolve` and `reject` of the producer run that returned it
      (lines 70-73), and `es` are those calls. An exception from one of
      them leaves the emitter and then `next`. */
  function InvokeEmitter(u: Upstream, k: ConsumerId, es: seq<ProducerCall>): (r: Step)
    ensures r.up.emitter == u.emitter && r.up.runs == u.runs && r.up.invocations == u.invocations + [k]
    ensures es == [] ==> r == Step(u.(invocations := u.invocations + [k]), false)
  {
    ProducerRun(u.(invocations := u.invocations + [k]), ForNext, es)
  }

  /** `composit.next(k)` (lines 67-85). `marked` is the producer's return
      value when it is a function carrying the emit marker. The first pull
      runs the producer; without a marked emitter it throws and leaves
      `performEmit` unset; with one it binds `performEmit` and invokes the
      emitter (line 77), with the emitter's calls `onBind`. Every pull
      that gets past that invokes the emitter (line 84), with the
      emitter's calls `onPull`. */
  function NextStep(u: Upstream, k: ConsumerId, cs: seq<ProducerCall>, marked: Option<ConsumerId>,
                    onBind: seq<ProducerCall>, onPull: seq<ProducerCall>): Step
  {
    if u.emitter.Some? then InvokeEmitter(u, k, onPull)
    else
      var p := ProducerRun(u.(runs := u.runs + 1), ForNext, cs);
      if p.threw then p
      else if marked.None? then Step(p.up, true)
      else
        var b := InvokeEmitter(p.up.(emitter := marked), k, onBind);
        if b.threw then b else InvokeEmitter(b.up, k, onPull)
  }

  /** `composit.resolve(k)` (lines 50-62): once emitting, register on the
      resolve side; before that, run the producer with a `resolve` that
      hands a plain result straight to `k`. */
  function ResolveStep(u: Upstream, k: ConsumerId, cs: seq<ProducerCall>): (r: Step)
    ensures r.up.emitter == u.emitter && r.up.invocations == u.invocations
    ensures r.up.runs == u.runs + (if u.emitter.None? then 1 else 0)
    ensures u.emitter.Some? ==> r == Step(u.(resolve := Withdraw(u.resolve, k).side, calls := u.calls + Withdraw(u.resolve, k).calls), false)
    ensures u.emitter.None? ==> r.up.resolve == u.resolve
  {
    if u.emitter.Some? then
      var f := Withdraw(u.resolve, k);
      Step(u.(resolve := f.side, calls := u.calls + f.calls), false)
    else ProducerRun(u.(runs := u.runs + 1), ForResolve(k), cs)
  }

  lemma ProducerRunSnoc(u: Upstream, runner: Runner, pre: seq<ProducerCall>, c: ProducerCall)
    ensures ProducerRun(u, runner, pre + [c]) ==
      var p := ProducerRun(u, runner, pre); if p.threw then p else ProducerStep(p.up, runner, c)
  {
    assert (pre + [c])[..|pre|] == pre;
  }

  /** Before the first emit, a `then` receives every plain result its run
      of the producer resolves with, in order, however many there are; a
      producer that does not reject changes nothing else. */
  lemma {:induction false} ResolveBeforeEmitDelivers(u: Upstream, k: ConsumerId, cs: seq<ProducerCall>)
    requires u.emitter.None? && Errors(cs) == []
    ensures ResolveStep(u, k, cs) == Step(u.(runs := u.runs + 1, calls := u.calls + CallsTo(k, PlainResults(cs))), false)
  {
    if cs != [] {
      var pre, c := cs[..|cs| - 1], cs[|cs| - 1];
      assert cs == pre + [c];
      ProducerCallsSnoc(pre, c);
      assert Errors(pre) == [];
      assert c.ResolvesWith?;
      ResolveBeforeEmitDelivers(u, k, pre);
      var u' := u.(runs := u.runs + 1);
      ProducerRunSnoc(u', ForResolve(k), pre, c);
      var p := ProducerRun(u', ForResolve(k), pre);
      assert p == Step(u.(runs := u.runs + 1, calls := u.calls + CallsTo(k, PlainResults(pre))), false);
      assert ResolveStep(u, k, cs) == ProducerStep(p.up, ForResolve(k), c);
      if !c.result.Thenable? {
        CallsToSnoc(k, PlainResults(pre), c.result);
      } else {
        assert PlainResults(cs) == PlainResults(pre);
      }
    }
  }

  /** On the first pull the resolve side can hold one result: a producer
      that resolves twice with plain values makes the second call the
      delivery closure of the first, which throws unless the second is a
      function; the rest of the producer does not run. */
  lemma SecondResultThrowsOnFirstPull(u: Upstream, v: Value, w: Value, rest: seq<ProducerCall>)
    requires u.resolve.slot.Vacant? && !v.Thenable? && !w.Thenable? && !w.Fn?
    ensures var r := ProducerRun(u, ForNext, [ResolvesWith(v), ResolvesWith(w)] + rest);
      && r.threw
      && r.up.resolve.slot == Holds(Delivery(v))
      && r.up.calls == u.calls
  {
    var cs := [ResolvesWith(v), ResolvesWith(w)];
    ProducerRunSnoc(u, ForNext, [], ResolvesWith(v));
    assert [] + [ResolvesWith(v)] == [ResolvesWith(v)];
    var first := ProducerRun(u, ForNext, [ResolvesWith(v)]);
    assert first == Step(u.(resolve := Side(Holds(Delivery(v)), u.resolve.flag)), false);
    ProducerRunSnoc(u, ForNext, [ResolvesWith(v)], ResolvesWith(w));
    assert [ResolvesWith(v)] + [ResolvesWith(w)] == cs;
    assert ProducerRun(u, ForNext, cs) == Step(first.up, true);
    ThrowEndsProducer(u, ForNext, cs, rest);
  }

  /** `composit.reject(k)` (lines 63-66): register `k` on the reject side;
      nothing else changes but the calls that registration makes. */
  function RejectStep(u: Upstream, k: ConsumerId): (r: Upstream)
    ensures r.reject == Withdraw(u.reject, k).side
    ensures r.calls == u.calls + Withdraw(u.reject, k).calls
    ensures r.resolve == u.resolve && r.emitter == u.emitter && r.runs == u.runs
    ensures r.invocations == u.invocations
  {
    var f := Withdraw(u.reject, k);
    u.(reject := f.side, calls := u.calls + f.calls)
  }

  /** One pull: its `next` callback, what the producer does if it runs,
      whether what it returns is a marked emitter, and the emitter's calls
      of `resolve` and `reject` when it is invoked on binding (`onBind`,
      line 77) and for the pull itself (`onPull`, line 84). */
  datatype Pull = Pull(k: ConsumerId, producer: seq<ProducerCall>, marked: Option<ConsumerId>,
                       onBind: seq<ProducerCall>, onPull: seq<ProducerCall>)

  /** A run of pulls: the final state, and for each pull whether it threw. */
  datatype Pulled = Pulled(up: Upstream, threw: seq<bool>)

  function PullRun(u: Upstream, ps: seq<Pull>): (r: Pulled)
    ensures |r.threw| == |ps|
    decreases |ps|
  {
    if ps == [] then Pulled(u, [])
    else
      var s := NextStep(u, ps[0].k, ps[0].producer, ps[0].marked, ps[0].onBind, ps[0].onPull);
      var r := PullRun(s.up, ps[1..]);
      Pulled(r.up, [s.threw] + r.threw)
  }

  /** A run of pulls is its first pull followed by the rest. */
  lemma PullRunCons(u: Upstream, ps: seq<Pull>)
    requires ps != []
    ensures var s := NextStep(u, ps[0].k, ps[0].producer, ps[0].marked, ps[0].onBind, ps[0].onPull);
      PullRun(u, ps) == Pulled(PullRun(s.up, ps[1..]).up, [s.threw] + PullRun(s.up, ps[1..]).threw)
  {
  }

  function Callbacks(ps: seq<Pull>): (ks: seq<ConsumerId>)
    ensures |ks| == |ps|
    ensures forall i :: 0 <= i < |ps| ==> ks[i] == ps[i].k
  {
    if ps == [] then [] else [ps[0].k] + Callbacks(ps[1..])
  }

  /** Pulls whose emitter calls neither `resolve` nor `reject`. */
  predicate Quiet(ps: seq<Pull>)
  {
    forall i :: 0 <= i < |ps| ==> ps[i].onPull == []
  }

  lemma QuietTail(ps: seq<Pull>)
    requires ps != [] && Quiet(ps)
    ensures ps[0].onPull == [] && Quiet(ps[1..])
  {
    forall i | 0 <= i < |ps[1..]|
      ensures ps[1..][i].onPull == []
    {
      assert ps[1..][i] == ps[i + 1];
    }
  }

  /** A run of pulls throws nowhere when its first pull does not throw
      and the rest throw nowhere. */
  lemma NoThrowCons(u: Upstream, ps: seq<Pull>)
    requires ps != []
    requires var s := NextStep(u, ps[0].k, ps[0].producer, ps[0].marked, ps[0].onBind, ps[0].onPull);
      !s.threw && forall i :: 0 <= i < |ps| - 1 ==> !PullRun(s.up, ps[1..]).threw[i]
    ensures forall i :: 0 <= i < |ps| ==> !PullRun(u, ps).threw[i]
  {
    var s := NextStep(u, ps[0].k, ps[0].producer, ps[0].marked, ps[0].onBind, ps[0].onPull);
    var r := PullRun(s.up, ps[1..]);
    forall i | 0 <= i < |ps|
      ensures !PullRun(u, ps).threw[i]
    {
      if i > 0 {
        assert PullRun(u, ps).threw[i] == r.threw[i - 1];
      }
    }
  }

  /** One emitter invocation whose only call is `resolve()`: on a vacant
      resolve side it parks `undefined`; on a pending value it calls that
      value's delivery closure with `undefined` and throws. */
  lemma ResolveOnce(u: Upstream, k: ConsumerId)
    ensures var r := InvokeEmitter(u, k, [ResolvesWith(Undefined)]);
      var u' := u.(invocations := u.invocations + [k]);
      && (u.resolve.slot.Vacant? ==> r == Step(u'.(resolve := Side(Holds(Delivery(Undefined)), u.resolve.flag)), false))
      && (u.resolve.slot.Holds? && u.resolve.slot.f.Delivery? ==> r == Step(u', true))
  {
    var u' := u.(invocations := u.invocations + [k]);
    ProducerRunSnoc(u', ForNext, [], ResolvesWith(Undefined));
    assert [] + [ResolvesWith(Undefined)] == [ResolvesWith(Undefined)];
  }

  /** Once emitting, each pull invokes the emitter once with its own
      callback, and never reruns the producer or rebinds the emitter,
      whatever the emitter does. */
  lemma {:induction false} EmittingPullsInvokeOnce(u: Upstream, ps: seq<Pull>)
    requires u.emitter.Some?
    ensures PullRun(u, ps).up.invocations == u.invocations + Callbacks(ps)
    ensures PullRun(u, ps).up.emitter == u.emitter && PullRun(u, ps).up.runs == u.runs
    decreases |ps|
  {
    if ps != [] {
      var s := InvokeEmitter(u, ps[0].k, ps[0].onPull);
      assert NextStep(u, ps[0].k, ps[0].producer, ps[0].marked, ps[0].onBind, ps[0].onPull) == s;
      EmittingPullsInvokeOnce(s.up, ps[1..]);
      PullRunCons(u, ps);
      assert [ps[0].k] + Callbacks(ps[1..]) == Callbacks(ps);
      OneThenRest(u.invocations, ps[0].k, Callbacks(ps[1..]));
    }
  }

  /** Once emitting, pulls whose emitter calls neither `resolve` nor
      `reject` do not throw, and change nothing but the invocations. */
  lemma {:induction false} QuietPullsOnlyInvoke(u: Upstream, ps: seq<Pull>)
    requires u.emitter.Some? && Quiet(ps)
    ensures PullRun(u, ps).up == u.(invocations := u.invocations + Callbacks(ps))
    ensures forall i :: 0 <= i < |ps| ==> !PullRun(u, ps).threw[i]
    decreases |ps|
  {
    if ps != [] {
      QuietTail(ps);
      var u' := u.(invocations := u.invocations + [ps[0].k]);
      assert NextStep(u, ps[0].k, ps[0].producer, ps[0].marked, ps[0].onBind, ps[0].onPull) == Step(u', false);
      QuietPullsOnlyInvoke(u', ps[1..]);
      PullRunCons(u, ps);
      assert [ps[0].k] + Callbacks(ps[1..]) == Callbacks(ps);
      OneThenRest(u.invocations, ps[0].k, Callbacks(ps[1..]));
      NoThrowCons(u, ps);
    }
  }

  /** With a callback registered on both sides, the emitter's calls of
      `resolve` and `reject` reach those callbacks and never throw. */
  lemma {:induction false} RegisteredSidesNeverThrow(u: Upstream, es: seq<ProducerCall>)
    requires u.resolve.slot.Holds? && u.resolve.slot.f.Consumer?
    requires u.reject.slot.Holds? && u.reject.slot.f.Consumer?
    ensures !ProducerRun(u, ForNext, es).threw
    ensures ProducerRun(u, ForNext, es).up.resolve.slot == u.resolve.slot
    ensures ProducerRun(u, ForNext, es).up.reject.slot == u.reject.slot
  {
    if es != [] {
      var pre, c := es[..|es| - 1], es[|es| - 1];
      assert es == pre + [c];
      RegisteredSidesNeverThrow(u, pre);
      ProducerRunSnoc(u, ForNext, pre, c);
    }
  }

  /** So once a `then` and a `catch` have registered on a bound stream, no
      pull throws, whatever the emitter calls. */
  lemma {:induction false} RegisteredPullsNeverThrow(u: Upstream, ps: seq<Pull>)
    requires u.emitter.Some?
    requires u.resolve.slot.Holds? && u.resolve.slot.f.Consumer?
    requires u.reject.slot.Holds? && u.reject.slot.f.Consumer?
    ensures forall i :: 0 <= i < |ps| ==> !PullRun(u, ps).threw[i]
    decreases |ps|
  {
    if ps != [] {
      var u' := u.(invocations := u.invocations + [ps[0].k]);
      RegisteredSidesNeverThrow(u', ps[0].onPull);
      var s := NextStep(u, ps[0].k, ps[0].producer, ps[0].marked, ps[0].onBind, ps[0].onPull);
      RegisteredPullsNeverThrow(s.up, ps[1..]);
      NoThrowCons(u, ps);
    }
  }

  /** A producer that does not return a marked emitter is run again by
      every pull, and every pull throws without ever invoking anything. */
  lemma {:induction false} UnmarkedPullsRerunProducer(u: Upstream, ps: seq<Pull>)
    requires u.emitter.None?
    requires forall i :: 0 <= i < |ps| ==> ps[i].marked.None?
    ensures PullRun(u, ps).up.emitter.None?
    ensures PullRun(u, ps).up.runs == u.runs + |ps|
    ensures PullRun(u, ps).up.invocations == u.invocations
    ensures forall i :: 0 <= i < |ps| ==> PullRun(u, ps).threw[i]
    decreases |ps|
  {
    if ps != [] {
      UnmarkedPullsRerunProducer(NextStep(u, ps[0].k, ps[0].producer, ps[0].marked, ps[0].onBind, ps[0].onPull).up, ps[1..]);
    }
  }

  /** The first pull whose producer returns a marked emitter binds it and
      runs the producer once, even when the emitter then throws. It
      invokes the emitter twice with `k` unless the first invocation
      throws. */
  lemma FirstPullBinds(u: Upstream, k: ConsumerId, cs: seq<ProducerCall>, id: ConsumerId,
                       onBind: seq<ProducerCall>, onPull: seq<ProducerCall>)
    requires u.emitter.None?
    requires !ProducerRun(u.(runs := u.runs + 1), ForNext, cs).threw
    ensures var s := NextStep(u, k, cs, Some(id), onBind, onPull);
      && s.up.emitter == Some(id)
      && s.up.runs == u.runs + 1
      && (s.up.invocations == u.invocations + [k] || s.up.invocations == u.invocations + [k, k])
      && (!s.threw ==> s.up.invocations == u.invocations + [k, k])
  {
  }

  /** With an emitter that calls neither `resolve` nor `reject`, the first
      pull completes: besides the producer's run, it only binds the
      emitter and records its two invocations. */
  lemma QuietFirstPull(u: Upstream, k: ConsumerId, cs: seq<ProducerCall>, id: ConsumerId)
    requires u.emitter.None?
    requires !ProducerRun(u.(runs := u.runs + 1), ForNext, cs).threw
    ensures NextStep(u, k, cs, Some(id), [], [])
      == Step(ProducerRun(u.(runs := u.runs + 1), ForNext, cs).up.(emitter := Some(id), invocations := u.invocations + [k, k]), false)
  {
  }

  /** The first pull invokes the emitter twice with the same callback,
      each later pull once, and the producer runs exactly once. */
  lemma EmitterTwiceThenOnce(u: Upstream, ps: seq<Pull>)
    requires u.emitter.None? && ps != [] && ps[0].marked.Some?
    requires !ProducerRun(u.(runs := u.runs + 1), ForNext, ps[0].producer).threw
    ensures PullRun(u, ps).up.runs == u.runs + 1
    ensures PullRun(u, ps).up.emitter == ps[0].marked
    ensures !NextStep(u, ps[0].k, ps[0].producer, ps[0].marked, ps[0].onBind, ps[0].onPull).threw ==>
      PullRun(u, ps).up.invocations == u.invocations + [ps[0].k] + Callbacks(ps)
  {
    var first := NextStep(u, ps[0].k, ps[0].producer, ps[0].marked, ps[0].onBind, ps[0].onPull);
    FirstPullBinds(u, ps[0].k, ps[0].producer, ps[0].marked.value, ps[0].onBind, ps[0].onPull);
    EmittingPullsInvokeOnce(first.up, ps[1..]);
    PullRunCons(u, ps);
    if !first.threw {
      var rest := Callbacks(ps[1..]);
      assert [ps[0].k] + rest == Callbacks(ps);
      assert PullRun(u, ps).up.invocations == u.invocations + [ps[0].k, ps[0].k] + rest;
      TwiceThenRest(u.invocations, ps[0].k, rest);
    }
  }

  lemma OneThenRest(a: seq<ConsumerId>, k: ConsumerId, rest: seq<ConsumerId>)
    ensures a + [k] + rest == a + ([k] + rest)
  {
  }

  lemma TwiceThenRest(a: seq<ConsumerId>, k: ConsumerId, rest: seq<ConsumerId>)
    ensures a + [k, k] + rest == a + [k] + ([k] + rest)
  {
    assert [k, k] == [k] + [k];
  }

  /** When the emitter never calls `resolve` or `reject`, no pull of a
      stream whose producer returned it throws. */
  lemma QuietEmitterNeverThrows(u: Upstream, ps: seq<Pull>)
    requires u.emitter.None? && ps != [] && ps[0].marked.Some?
    requires !ProducerRun(u.(runs := u.runs + 1), ForNext, ps[0].producer).threw
    requires ps[0].onBind == [] && Quiet(ps)
    ensures forall i :: 0 <= i < |ps| ==> !PullRun(u, ps).threw[i]
  {
    var first := NextStep(u, ps[0].k, ps[0].producer, ps[0].marked, ps[0].onBind, ps[0].onPull);
    QuietTail(ps);
    QuietFirstPull(u, ps[0].k, ps[0].producer, ps[0].marked.value);
    QuietPullsOnlyInvoke(first.up, ps[1..]);
    NoThrowCons(u, ps);
  }

  /** What the emitter of `pipe.from` (lines 200-208) calls on the
      producer's side for one signal: `resolve()` once the collection is
      exhausted; a `next` of an element goes to the pull's callback. */
  function EmitterCalls(sig: Signal): (cs: seq<ProducerCall>)
    ensures cs == [] <==> sig.Next?
    ensures forall c :: c in cs ==> c == ResolvesWith(sig.result)
  {
    if sig.Resolve? then [ResolvesWith(sig.result)] else []
  }

  /** The pulls of a `pipe.from(collection)` stream after the first one,
      from cursor `idx`: each invokes the emitter once. */
  function FromLaterPulls(collection: seq<Value>, idx: nat, ks: seq<ConsumerId>): (ps: seq<Pull>)
    requires idx <= |collection|
    ensures |ps| == |ks|
    decreases |ks|
  {
    if ks == [] then []
    else
      var (sig, idx') := FromCursor.Pull(collection, idx);
      [Pull(ks[0], [], None, [], EmitterCalls(sig))] + FromLaterPulls(collection, idx', ks[1..])
  }

  /** The pulls of a `pipe.from(collection)` stream: the producer makes no
      call and returns the marked emitter `id`; the first pull invokes
      the emitter twice, so it takes two signals of the cursor. */
  function FromPulls(collection: seq<Value>, id: ConsumerId, k: ConsumerId, ks: seq<ConsumerId>): (ps: seq<Pull>)
    ensures |ps| == |ks| + 1
  {
    var (s0, i0) := FromCursor.Pull(collection, 0);
    var (s1, i1) := FromCursor.Pull(collection, i0);
    [Pull(k, [], Some(id), EmitterCalls(s0), EmitterCalls(s1))] + FromLaterPulls(collection, i1, ks)
  }

  /** From cursor `idx`, with the resolve side vacant or holding a pending
      value, a later pull throws exactly when its signal is the second
      `resolve()` of the stream: the first parks `undefined` in a delivery
      closure, every further one calls that closure with `undefined`. */
  lemma {:induction false} FromLaterPullsThrow(collection: seq<Value>, idx: nat, ks: seq<ConsumerId>, u: Upstream)
    requires idx <= |collection| && u.emitter.Some?
    requires u.resolve.slot.Holds? ==> u.resolve.slot.f.Delivery?
    ensures forall i :: 0 <= i < |ks| ==>
      (PullRun(u, FromLaterPulls(collection, idx, ks)).threw[i]
       <==> idx + i > |collection| || (idx + i == |collection| && u.resolve.slot.Holds?))
    decreases |ks|
  {
    if ks != [] {
      var ps := FromLaterPulls(collection, idx, ks);
      var (sig, idx') := FromCursor.Pull(collection, idx);
      assert ps[1..] == FromLaterPulls(collection, idx', ks[1..]);
      var u' := u.(invocations := u.invocations + [ks[0]]);
      var s := NextStep(u, ks[0], [], None, [], EmitterCalls(sig));
      assert s == InvokeEmitter(u, ks[0], EmitterCalls(sig));
      if idx < |collection| {
        assert s == Step(u', false);
      } else {
        ResolveOnce(u, ks[0]);
      }
      FromLaterPullsThrow(collection, idx', ks[1..], s.up);
      var r := PullRun(s.up, ps[1..]);
      assert PullRun(u, ps) == Pulled(r.up, [s.threw] + r.threw);
      forall i | 0 <= i < |ks|
        ensures PullRun(u, ps).threw[i]
          <==> idx + i > |collection| || (idx + i == |collection| && u.resolve.slot.Holds?)
      {
        if i > 0 {
          assert PullRun(u, ps).threw[i] == r.threw[i - 1];
        }
      }
    }
  }

  /** A halfway `pipe.from(collection)` stream pulled through `next`: the
      first `|collection|` pulls complete, and every pull after them
      throws a TypeError out of `next`, because the second `resolve()`
      calls the delivery closure the first one left (lines 23-33, 72). */
  lemma FromPullsThrowPastTheEnd(collection: seq<Value>, u: Upstream, id: ConsumerId, k: ConsumerId, ks: seq<ConsumerId>)
    requires u.emitter.None? && u.resolve.slot.Vacant?
    ensures forall i :: 0 <= i < |ks| + 1 ==>
      (PullRun(u, FromPulls(collection, id, k, ks)).threw[i] <==> i >= |collection|)
  {
    var ps := FromPulls(collection, id, k, ks);
    var (s0, i0) := FromCursor.Pull(collection, 0);
    var (s1, i1) := FromCursor.Pull(collection, i0);
    assert ps[1..] == FromLaterPulls(collection, i1, ks);
    var p := u.(runs := u.runs + 1);
    assert ProducerRun(p, ForNext, []) == Step(p, false);
    var b := InvokeEmitter(p.(emitter := Some(id)), k, EmitterCalls(s0));
    var first := NextStep(u, k, [], Some(id), EmitterCalls(s0), EmitterCalls(s1));
    if |collection| == 0 {
      ResolveOnce(p.(emitter := Some(id)), k);
      ResolveOnce(b.up, k);
      assert first.threw;
    } else if |collection| == 1 {
      assert !b.threw && b.up.resolve.slot.Vacant?;
      ResolveOnce(b.up, k);
      assert !first.threw && first.up.resolve.slot == Holds(Delivery(Undefined));
    } else {
      assert !first.threw && first.up.resolve.slot.Vacant?;
    }
    FromLaterPullsThrow(collection, i1, ks, first.up);
    var r := PullRun(first.up, ps[1..]);
    assert PullRun(u, ps) == Pulled(r.up, [first.threw] + r.threw);
    forall i | 0 <= i < |ks| + 1
      ensures PullRun(u, ps).threw[i] <==> i >= |collection|
    {
      if i > 0 {
        assert PullRun(u, ps).threw[i] == r.threw[i - 1];
      }
    }
  }

  /** The calls the emitter of `pipe.from` (lines 200-208) makes on `next`
      callback `k` when it yields `sigs`; a `Resolve` goes to the
      producer's `resolve` instead. */
  function DeliveredTo(k: ConsumerId, sigs: seq<Signal>): (cs: seq<Call>)
    ensures |cs| <= |sigs|
  {
    if sigs == [] then []
    else
      var last := sigs[|sigs| - 1];
      DeliveredTo(k, sigs[..|sigs| - 1]) + (if last.Next? then [Call(k, last.value)] else [])
  }

  /** So the first pull of a `pipe.from` stream over two or more elements
      completes, handing the first two elements to the same callback. */
  lemma FromFirstPullTakesTwo(collection: seq<Value>, u: Upstream, k: ConsumerId, id: ConsumerId)
    requires u.emitter.None? && |collection| >= 2
    ensures var p := FromPulls(collection, id, k, [])[0];
      var s := NextStep(u, p.k, p.producer, p.marked, p.onBind, p.onPull);
      && !s.threw
      && |s.up.invocations| - |u.invocations| == 2
      && DeliveredTo(k, Pulls(collection, 0, 2)) == [Call(k, collection[0]), Call(k, collection[1])]
  {
    PullsFrom(collection, 0, 0);
    assert Pulls(collection, 0, 2) == [Next(collection[0]), Next(collection[1])];
    var sigs := Pulls(collection, 0, 2);
    assert sigs[..1] == [Next(collection[0])];
    assert sigs[..1][..0] == [];
    var p := u.(runs := u.runs + 1);
    assert ProducerRun(p, ForNext, []) == Step(p, false);
  }

  /** A function object; `pipe.emit` sets its `EMIT` property. */
  class FunctionObject {
    const id: ConsumerId
    var emitMark: bool

    constructor (id: ConsumerId)
      ensures this.id == id && !emitMark
    {
      this.id := id;
      emitMark := false;
    }
  }

  /** `pipe.emit(f)` (lines 196-199): marks `f` and returns it. */
  method Emit(f: FunctionObject) returns (r: FunctionObject)
    modifies f
    ensures r == f && f.emitMark
  {
    f.emitMark := true;
    r := f;
  }

  /** What the check at line 75 finds in the producer's return value. */
  function MarkedEmitter(f: FunctionObject?): Option<ConsumerId>
    reads f
  {
    if f != null && f.emitMark then Some(f.id) else None
  }

  class GenerateUpstream {
    var performResolve: Slot
    var performReject: Slot
    var resolved: bool
    var rejected: bool
    var performEmit: Option<ConsumerId>
    var runs: nat
    var invocations: seq<ConsumerId>
    var calls: seq<Call>

    function State(): Upstream
      reads this
    {
      Upstream(Side(performResolve, resolved), Side(performReject, rejected), performEmit, runs, invocations, calls)
    }

    constructor ()
      ensures State() == Start
    {
      performResolve, performReject := Vacant, Vacant;
      resolved, rejected := false, false;
      performEmit, runs, invocations, calls := None, 0, [], [];
    }

    method SetResolve(f: Feed)
      modifies this
      ensures State() == old(State()).(resolve := f.side, calls := old(calls) + f.calls)
    {
      performResolve, resolved := f.side.slot, f.side.flag;
      calls := calls + f.calls;
    }

    method SetReject(f: Feed)
      modifies this
      ensures State() == old(State()).(reject := f.side, calls := old(calls) + f.calls)
    {
      performReject, rejected := f.side.slot, f.side.flag;
      calls := calls + f.calls;
    }

    /** The producer's calls, in order, until one throws. */
    method RunProducer(runner: Runner, cs: seq<ProducerCall>) returns (threw: bool)
      modifies this
      ensures Step(State(), threw) == ProducerRun(old(State()), runner, cs)
    {
      threw := false;
      var i := 0;
      while i < |cs|
        invariant 0 <= i <= |cs|
        invariant Step(State(), threw) == ProducerRun(old(State()), runner, cs[..i])
      {
        assert cs[..i + 1][..i] == cs[..i];
        if !threw {
          match cs[i] {
            case ResolvesWith(v) =>
              if !v.Thenable? {
                if runner.ForResolve? {
                  calls := calls + [Call(runner.k, v)];
                } else {
                  var f := Deposit(State().resolve, v);
                  if !f.threw {
                    SetResolve(f);
                  }
                  threw := f.threw;
                }
              }
            case RejectsWith(e) =>
              var f := Deposit(State().reject, e);
              if !f.threw {
                SetReject(f);
              }
              threw := f.threw;
          }
        }
        i := i + 1;
      }
      assert cs[..|cs|] == cs;
    }

    /** `composit.next(k)` with the producer returning `returned` (null
        when it returns no function). */
    method Next(k: ConsumerId, cs: seq<ProducerCall>, returned: FunctionObject?,
                onBind: seq<ProducerCall>, onPull: seq<ProducerCall>) returns (threw: bool)
      modifies this
      ensures Step(State(), threw) == NextStep(old(State()), k, cs, MarkedEmitter(returned), onBind, onPull)
    {
      if performEmit.None? {
        runs := runs + 1;
        threw := RunProducer(ForNext, cs);
        if threw {
          return;
        }
        if returned != null && returned.emitMark {
          performEmit := Some(returned.id);
          invocations := invocations + [k];
          threw := RunProducer(ForNext, onBind);
          if threw {
            return;
          }
        } else {
          threw := true;
          return;
        }
      }
      invocations := invocations + [k];
      threw := RunProducer(ForNext, onPull);
    }

    /** `composit.resolve(k)`. */
    method Resolve(k: ConsumerId, cs: seq<ProducerCall>) returns (threw: bool)
      modifies this
      ensures Step(State(), threw) == ResolveStep(old(State()), k, cs)
    {
      if performEmit.Some? {
        SetResolve(Withdraw(State().resolve, k));
        threw := false;
      } else {
        runs := runs + 1;
        threw := RunProducer(ForResolve(k), cs);
      }
    }

    /** `composit.reject(k)`. */
    method Reject(k: ConsumerId)
      modifies this
      ensures State() == RejectStep(old(State()), k)
    {
      SetReject(Withdraw(State().reject, k));
    }
  }
}
