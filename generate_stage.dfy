/** The generate stage of pipe.js (`generateEmitComposit`,
    `generateResolveComposit`, `generateMetaFlow`; pipe.js:37-115).

    Two reassigned closures form a small state machine. `performEmit`
    starts as `initEmitStateFn`; the first pull for an element runs the
    producer, rebinds `performEmit` to `performEmitFn`, and tells the
    resolve side to switch from `nonEmittingPerformResolve` (which runs the
    producer again for each `then`) to `emittingPerformResolve` (which
    reads the resolve cell). `emitState.isFinished` latches once the
    producer resolves or rejects. */
module GenerateStage {
  import opened JsValue
  import opened PipeCell

  /** Which function `performEmit` is bound to. */
  datatype EmitBinding = InitEmitState | PerformEmitFn

  /** Which function `performResolve` is bound to. */
  datatype ResolveBinding = NonEmitting | Emitting

  /** What the producer is handed, position by position. */
  datatype ProducerArg = ResolveFnArg | RejectFnArg | ResolveStateArg

  /** The arguments `nonEmittingPerformResolve` passes (pipe.js:89). */
  function NonEmittingArgs(): seq<ProducerArg>
  {
    [ResolveFnArg, RejectFnArg]
  }

  /** The arguments `initEmitStateFn` passes as written (pipe.js:67): the
      resolve cell object sits where the producer expects `reject`. */
  function EmitArgsAsWritten(): seq<ProducerArg>
  {
    [ResolveFnArg, ResolveStateArg, RejectFnArg]
  }

  /** The arguments `initEmitStateFn` evidently means to pass: the same as
      the other mode. This is what the stage below uses. */
  function EmitArgs(): seq<ProducerArg>
  {
    [ResolveFnArg, RejectFnArg]
  }

  /** What happens when a producer calls its parameter number `pos` (0 for
      `resolve`, 1 for `reject`) with `v`: the stage's own `resolve` or
      `reject` runs, or, when what sits at that position is not a function
      (the resolve cell object, or `undefined` past the last argument), the
      call throws a TypeError. */
  datatype ParamCall = ResolvesStage(v: Value) | RejectsStage(e: Value) | Throws(error: Value)

  function CallParam(args: seq<ProducerArg>, pos: nat, v: Value): (r: ParamCall)
    ensures r.Throws? <==> pos >= |args| || args[pos] == ResolveStateArg
    ensures r.Throws? ==> r.error == TypeError
    ensures pos < |args| && args[pos] == ResolveFnArg ==> r == ResolvesStage(v)
    ensures pos < |args| && args[pos] == RejectFnArg ==> r == RejectsStage(v)
  {
    if pos >= |args| then Throws(TypeError)
    else match args[pos]
      case ResolveFnArg => ResolvesStage(v)
      case RejectFnArg => RejectsStage(v)
      case ResolveStateArg => Throws(TypeError)
  }

  /** As written, a streaming producer `(resolve, reject) => ...` that
      calls `reject(e)` calls the resolve cell object instead and throws a
      TypeError; in single-value mode the same call rejects the stage. */
  lemma StreamingRejectThrowsAsWritten(e: Value)
    ensures CallParam(EmitArgsAsWritten(), 1, e) == Throws(TypeError)
    ensures CallParam(NonEmittingArgs(), 1, e) == RejectsStage(e)
  {
  }

  /** With the intended argument list, `reject` is the second parameter in
      both modes, so a producer behaves the same whichever pull runs it. */
  lemma StreamingRejectRejects(pos: nat, v: Value)
    ensures CallParam(EmitArgs(), pos, v) == CallParam(NonEmittingArgs(), pos, v)
    ensures CallParam(EmitArgs(), 1, v) == RejectsStage(v)
  {
  }

  /** The closures' bindings and how often the producer has run. */
  datatype Modes = Modes(emit: EmitBinding, resolve: ResolveBinding, runs: nat)

  const Initial: Modes := Modes(InitEmitState, NonEmitting, 0)

  /** Requests made of the stage by the pipe downstream. */
  datatype Request = EmitRequest | ResolveRequest | RejectRequest

  /** How one request changes the bindings: the first emit runs the
      producer and switches both closures; a resolve before that runs the
      producer again; nothing else runs it. */
  function ModeStep(m: Modes, r: Request): (m': Modes)
    ensures m'.emit == (if r.EmitRequest? then PerformEmitFn else m.emit)
    ensures m'.runs == m.runs + (if (r.EmitRequest? && m.emit.InitEmitState?) || (r.ResolveRequest? && m.resolve.NonEmitting?) then 1 else 0)
  {
    match r
    case EmitRequest =>
      if m.emit.InitEmitState? then Modes(PerformEmitFn, Emitting, m.runs + 1) else m
    case ResolveRequest =>
      if m.resolve.NonEmitting? then m.(runs := m.runs + 1) else m
    case RejectRequest => m
  }

  /** The bindings after a first pull whose producer calls its parameter
      `pos`, and the exception that escapes the pull, if any. */
  datatype FirstPull = FirstPull(modes: Modes, escaped: Option<Value>)

  /** `initEmitStateFn` as written (pipe.js:54-70): `onEmitCallback()`
      switches the resolve side and the producer runs before `performEmit`
      is rebound, so a throwing call leaves the emit side unswitched. */
  function FirstPullAsWritten(m: Modes, pos: nat, v: Value): FirstPull
  {
    var switched := Modes(m.emit, Emitting, m.runs + 1);
    match CallParam(EmitArgsAsWritten(), pos, v)
    case Throws(e) => FirstPull(switched, Some(e))
    case _ => FirstPull(switched.(emit := PerformEmitFn), None)
  }

  /** As written, the TypeError escapes the first pull after the resolve
      side has switched but before `performEmit` is rebound: every `then`
      now waits on the resolve cell, and the next pull runs the producer
      again. With the intended arguments the same call rejects and the
      pull switches both sides. */
  lemma StreamingRejectEscapesAsWritten(e: Value)
    ensures FirstPullAsWritten(Initial, 1, e) == FirstPull(Modes(InitEmitState, Emitting, 1), Some(TypeError))
    ensures ModeStep(FirstPullAsWritten(Initial, 1, e).modes, EmitRequest).runs == 2
    ensures CallParam(EmitArgs(), 1, e) == RejectsStage(e) && ModeStep(Initial, EmitRequest) == Modes(PerformEmitFn, Emitting, 1)
  {
  }

  function ModeRun(m: Modes, rs: seq<Request>): Modes
  {
    if rs == [] then m else ModeStep(ModeRun(m, rs[..|rs| - 1]), rs[|rs| - 1])
  }

  /** Index of the first emit request, or `|rs|` when there is none. */
  function FirstEmit(rs: seq<Request>): (i: nat)
    ensures i <= |rs|
    ensures i < |rs| ==> rs[i] == EmitRequest
    ensures forall j :: 0 <= j < i ==> rs[j] != EmitRequest
  {
    if rs == [] then 0
    else if rs[0] == EmitRequest then 0
    else 1 + FirstEmit(rs[1..])
  }

  function CountResolves(rs: seq<Request>): nat
  {
    if rs == [] then 0
    else CountResolves(rs[..|rs| - 1]) + (if rs[|rs| - 1] == ResolveRequest then 1 else 0)
  }

  lemma FirstEmitSnoc(rs: seq<Request>, r: Request)
    ensures FirstEmit(rs + [r]) == if FirstEmit(rs) < |rs| || r == EmitRequest then FirstEmit(rs) else |rs| + 1
  {
    var f, g := FirstEmit(rs), FirstEmit(rs + [r]);
    assert forall j :: 0 <= j < |rs| ==> (rs + [r])[j] == rs[j];
    if f < |rs| {
      assert (rs + [r])[f] == EmitRequest;
    } else if r == EmitRequest {
      assert (rs + [r])[|rs|] == EmitRequest;
    } else {
      assert forall j :: 0 <= j < |rs| + 1 ==> (rs + [r])[j] != EmitRequest;
    }
  }

  /** Starting fresh, every request before the first emit finds both
      closures at their initial bindings; from the first emit on, both are
      switched for good. */
  lemma {:induction false} ModeRunSwitchesAtFirstEmit(rs: seq<Request>)
    ensures var m := ModeRun(Initial, rs);
      (FirstEmit(rs) < |rs| <==> m.emit == PerformEmitFn) &&
      (m.emit == PerformEmitFn <==> m.resolve == Emitting)
  {
    if rs != [] {
      var init := rs[..|rs| - 1];
      ModeRunSwitchesAtFirstEmit(init);
      FirstEmitSnoc(init, rs[|rs| - 1]);
      assert init + [rs[|rs| - 1]] == rs;
    }
  }

  /** The producer runs once for every `then` registered before the first
      pull, once for that pull, and never again. */
  lemma {:induction false} ProducerRuns(rs: seq<Request>)
    ensures ModeRun(Initial, rs).runs ==
      CountResolves(rs[..FirstEmit(rs)]) + (if FirstEmit(rs) < |rs| then 1 else 0)
  {
    if rs != [] {
      var init, r := rs[..|rs| - 1], rs[|rs| - 1];
      assert init + [r] == rs;
      ProducerRuns(init);
      ModeRunSwitchesAtFirstEmit(init);
      FirstEmitSnoc(init, r);
      var f := FirstEmit(init);
      if f < |init| {
        assert rs[..FirstEmit(rs)] == init[..f];
      } else if r == EmitRequest {
        assert rs[..FirstEmit(rs)] == init;
        assert init[..f] == init;
      } else {
        assert rs[..FirstEmit(rs)] == rs;
        assert init[..f] == init;
        assert rs[..|rs| - 1] == init;
      }
    }
  }

  /** What the emitter does when a deferred pull runs it: hand a result to
      its `next` callback, call the producer's `resolve` or `reject` (which
      it may close over), or nothing. */
  datatype EmitterAction = CallsNext(result: Value) | CallsProducer(call: ProducerCall) | Quiet

  /** Observable events of the stage other than the cells' own calls. */
  datatype Event =
    | ProducerRun(args: seq<ProducerArg>)
    | Scheduled(next: ConsumerId)
    | Delivered(call: Call)
    | AwaitingThenable(thenable: Value)

  /** What the producer's calls act on in streaming mode: both cells with
      their calls, `emitState.isFinished`, and the log. */
  datatype Effects = Effects(resolve: Trace, reject: Trace, finished: bool, log: seq<Event>)

  /** One call of `resolveFn` or `rejectFn` of `initEmitStateFn`
      (pipe.js:56-66). */
  function StreamCall(s: Effects, c: ProducerCall): Effects
  {
    match c
    case ResolvesWith(r) =>
      if r.Thenable? then s.(log := s.log + [AwaitingThenable(r)])
      else s.(resolve := Feed(s.resolve, r), finished := true)
    case RejectsWith(e) =>
      s.(reject := Feed(s.reject, e), finished := true)
  }

  function StreamCalls(s: Effects, cs: seq<ProducerCall>): Effects
  {
    if cs == [] then s else StreamCall(StreamCalls(s, cs[..|cs| - 1]), cs[|cs| - 1])
  }

  function Awaiting(ts: seq<Value>): (evs: seq<Event>)
    ensures |evs| == |ts|
    ensures forall i :: 0 <= i < |ts| ==> evs[i] == AwaitingThenable(ts[i])
  {
    if ts == [] then [] else Awaiting(ts[..|ts| - 1]) + [AwaitingThenable(ts[|ts| - 1])]
  }

  lemma {:induction false} StreamResolveSide(s: Effects, cs: seq<ProducerCall>)
    ensures StreamCalls(s, cs).resolve == FeedAll(s.resolve, PlainResults(cs))
  {
    if cs != [] {
      var pre, c := cs[..|cs| - 1], cs[|cs| - 1];
      assert cs == pre + [c];
      StreamResolveSide(s, pre);
      ProducerCallsSnoc(pre, c);
      if c.ResolvesWith? && !c.result.Thenable? {
        FeedAllSnoc(s.resolve, PlainResults(pre), c.result);
      } else {
        assert PlainResults(cs) == PlainResults(pre);
      }
    }
  }

  lemma {:induction false} StreamRejectSide(s: Effects, cs: seq<ProducerCall>)
    ensures StreamCalls(s, cs).reject == FeedAll(s.reject, Errors(cs))
  {
    if cs != [] {
      var pre, c := cs[..|cs| - 1], cs[|cs| - 1];
      assert cs == pre + [c];
      StreamRejectSide(s, pre);
      ProducerCallsSnoc(pre, c);
      if c.RejectsWith? {
        FeedAllSnoc(s.reject, Errors(pre), c.error);
      } else {
        assert Errors(cs) == Errors(pre);
      }
    }
  }

  lemma {:induction false} StreamLogAndLatch(s: Effects, cs: seq<ProducerCall>)
    ensures StreamCalls(s, cs).log == s.log + Awaiting(AwaitedResults(cs))
    ensures StreamCalls(s, cs).finished <==> s.finished || PlainResults(cs) != [] || Errors(cs) != []
  {
    if cs != [] {
      var pre, c := cs[..|cs| - 1], cs[|cs| - 1];
      assert cs == pre + [c];
      StreamLogAndLatch(s, pre);
      ProducerCallsSnoc(pre, c);
      if c.ResolvesWith? && c.result.Thenable? {
        assert Awaiting(AwaitedResults(cs)) == Awaiting(AwaitedResults(pre)) + [AwaitingThenable(c.result)];
        assert PlainResults(cs) == PlainResults(pre) && Errors(cs) == Errors(pre);
      } else {
        assert AwaitedResults(cs) == AwaitedResults(pre);
      }
    }
  }

  /** In streaming mode the two cells do not interfere: the resolve cell is
      supplied exactly the plain results, in order, the reject cell exactly
      the errors, one awaiting event is logged per thenable, and
      `isFinished` is set by the first plain result or error and stays. */
  lemma StreamCallsSplit(s: Effects, cs: seq<ProducerCall>)
    ensures StreamCalls(s, cs).resolve == FeedAll(s.resolve, PlainResults(cs))
    ensures StreamCalls(s, cs).reject == FeedAll(s.reject, Errors(cs))
    ensures StreamCalls(s, cs).log == s.log + Awaiting(AwaitedResults(cs))
    ensures StreamCalls(s, cs).finished <==> s.finished || PlainResults(cs) != [] || Errors(cs) != []
  {
    StreamResolveSide(s, cs);
    StreamRejectSide(s, cs);
    StreamLogAndLatch(s, cs);
  }

  /** A `reject` callback registered before the first pull receives every
      error the streaming producer rejects with, in order, and the reject
      cell keeps its state. */
  lemma StreamErrorsReachRegistered(s: Effects, cs: seq<ProducerCall>)
    requires s.reject.state.consumer.Some?
    ensures StreamCalls(s, cs).reject
            == Trace(s.reject.state, s.reject.calls + CallsTo(s.reject.state.consumer.value, Errors(cs)))
  {
    StreamRejectSide(s, cs);
    FeedAllRegistered(s.reject, Errors(cs));
  }

  /** What the producer's calls act on when a `then` before the first pull
      runs it (`nonEmittingPerformResolve`, pipe.js:79-89): the reject cell,
      and the log. */
  datatype Direct = Direct(reject: Trace, log: seq<Event>)

  /** Its `resolve` hands a plain result straight to the `then` callback
      `k`; its `reject` goes to the reject cell and finishes nothing. */
  function DirectCall(k: ConsumerId, s: Direct, c: ProducerCall): Direct
  {
    match c
    case ResolvesWith(r) =>
      s.(log := s.log + [if r.Thenable? then AwaitingThenable(r) else Delivered(Call(k, r))])
    case RejectsWith(e) =>
      s.(reject := Feed(s.reject, e))
  }

  function DirectCalls(k: ConsumerId, s: Direct, cs: seq<ProducerCall>): Direct
  {
    if cs == [] then s else DirectCall(k, DirectCalls(k, s, cs[..|cs| - 1]), cs[|cs| - 1])
  }

  /** The calls among logged events, in order. */
  function DeliveredCalls(evs: seq<Event>): (calls: seq<Call>)
    ensures |calls| <= |evs|
  {
    if evs == [] then []
    else
      var e := evs[|evs| - 1];
      DeliveredCalls(evs[..|evs| - 1]) + (if e.Delivered? then [e.call] else [])
  }

  lemma {:induction false} DirectRejectSide(k: ConsumerId, s: Direct, cs: seq<ProducerCall>)
    ensures DirectCalls(k, s, cs).reject == FeedAll(s.reject, Errors(cs))
  {
    if cs != [] {
      var pre, c := cs[..|cs| - 1], cs[|cs| - 1];
      assert cs == pre + [c];
      DirectRejectSide(k, s, pre);
      ProducerCallsSnoc(pre, c);
      if c.RejectsWith? {
        FeedAllSnoc(s.reject, Errors(pre), c.error);
      } else {
        assert Errors(cs) == Errors(pre);
      }
    }
  }

  lemma DeliveredCallsSnoc(evs: seq<Event>, e: Event)
    ensures DeliveredCalls(evs + [e]) == DeliveredCalls(evs) + (if e.Delivered? then [e.call] else [])
  {
    assert (evs + [e])[..|evs|] == evs;
  }

  lemma {:induction false} DirectDeliveries(k: ConsumerId, s: Direct, cs: seq<ProducerCall>)
    ensures DeliveredCalls(DirectCalls(k, s, cs).log) == DeliveredCalls(s.log) + CallsTo(k, PlainResults(cs))
  {
    if cs != [] {
      var pre, c := cs[..|cs| - 1], cs[|cs| - 1];
      assert cs == pre + [c];
      DirectDeliveries(k, s, pre);
      ProducerCallsSnoc(pre, c);
      var log := DirectCalls(k, s, pre).log;
      if c.ResolvesWith? {
        var r := c.result;
        var e := if r.Thenable? then AwaitingThenable(r) else Delivered(Call(k, r));
        assert DirectCalls(k, s, cs).log == log + [e];
        DeliveredCallsSnoc(log, e);
        if !r.Thenable? {
          CallsToSnoc(k, PlainResults(pre), r);
        } else {
          assert PlainResults(cs) == PlainResults(pre);
        }
      } else {
        assert PlainResults(cs) == PlainResults(pre);
      }
    }
  }

  lemma {:induction false} DirectLogGrows(k: ConsumerId, s: Direct, cs: seq<ProducerCall>)
    ensures |DirectCalls(k, s, cs).log| == |s.log| + |PlainResults(cs)| + |AwaitedResults(cs)|
    ensures DirectCalls(k, s, cs).log[..|s.log|] == s.log
  {
    if cs != [] {
      var pre, c := cs[..|cs| - 1], cs[|cs| - 1];
      assert cs == pre + [c];
      DirectLogGrows(k, s, pre);
      ProducerCallsSnoc(pre, c);
      var log := DirectCalls(k, s, pre).log;
      if c.ResolvesWith? {
        var r := c.result;
        var e := if r.Thenable? then AwaitingThenable(r) else Delivered(Call(k, r));
        assert DirectCalls(k, s, cs).log == log + [e];
        assert (log + [e])[..|s.log|] == log[..|s.log|];
      } else {
        assert PlainResults(cs) == PlainResults(pre) && AwaitedResults(cs) == AwaitedResults(pre);
      }
    }
  }

  /** Before the first pull, every plain result the producer resolves with
      reaches the `then` callback, in order, however many there are; the
      reject cell is supplied exactly the errors; the log only grows, by one
      event per resolution. */
  lemma DirectCallsSplit(k: ConsumerId, s: Direct, cs: seq<ProducerCall>)
    ensures DirectCalls(k, s, cs).reject == FeedAll(s.reject, Errors(cs))
    ensures DeliveredCalls(DirectCalls(k, s, cs).log) == DeliveredCalls(s.log) + CallsTo(k, PlainResults(cs))
    ensures |DirectCalls(k, s, cs).log| == |s.log| + |PlainResults(cs)| + |AwaitedResults(cs)|
    ensures DirectCalls(k, s, cs).log[..|s.log|] == s.log
  {
    DirectRejectSide(k, s, cs);
    DirectDeliveries(k, s, cs);
    DirectLogGrows(k, s, cs);
  }

  /** A deferred pull's emitter run (pipe.js:41-50): a plain result goes to
      the pull's `next` callback, a thenable is awaited, and a call of the
      producer's `resolve` or `reject` acts as in streaming mode. */
  function EmitterStep(next: ConsumerId, s: Effects, a: EmitterAction): Effects
  {
    match a
    case CallsNext(r) =>
      s.(log := s.log + [if r.Thenable? then AwaitingThenable(r) else Delivered(Call(next, r))])
    case CallsProducer(c) => StreamCall(s, c)
    case Quiet => s
  }

  class Stage {
    var emitBinding: EmitBinding
    var resolveBinding: ResolveBinding
    /** `emitState.isFinished` (absent, so falsy, at first). */
    var isFinished: bool
    /** `emitState.emitFn`: what the producer returned on the first pull. */
    var emitFn: Value
    /** How often the producer has been run. */
    var producerRuns: nat
    /** `next` callbacks of deferred emitter calls not yet run, oldest first. */
    var pending: seq<ConsumerId>
    var log: seq<Event>
    const resolveState: Cell
    const rejectState: Cell

    function Bindings(): Modes
      reads this
    {
      Modes(emitBinding, resolveBinding, producerRuns)
    }

    function Current(): Effects
      reads this, resolveState, rejectState
    {
      Effects(resolveState.Traced(), rejectState.Traced(), isFinished, log)
    }

    /** The two cells are distinct, and `performEmit` is only rebound by
        the pull that also switches the resolve side. */
    ghost predicate Valid()
      reads this
    {
      && resolveState != rejectState
      && (emitBinding == PerformEmitFn ==> resolveBinding == Emitting)
    }

    /** `generateMetaFlow(generateFn)`: two empty cells, both closures at
        their initial binding. */
    constructor ()
      ensures Valid() && fresh(resolveState) && fresh(rejectState)
      ensures Bindings() == Initial
      ensures emitFn == Undefined && pending == []
      ensures Current() == Effects(Trace(Empty, []), Trace(Empty, []), false, [])
    {
      emitBinding, resolveBinding := InitEmitState, NonEmitting;
      isFinished, emitFn, producerRuns := false, Undefined, 0;
      pending, log := [], [];
      resolveState := new Cell();
      rejectState := new Cell();
    }

    /** `resolveFn` of the streaming mode (pipe.js:56-62). */
    method ProducerResolve(result: Value)
      requires Valid()
      modifies this, resolveState
      ensures Valid()
      ensures Current() == StreamCall(old(Current()), ResolvesWith(result))
      ensures Bindings() == old(Bindings()) && pending == old(pending) && emitFn == old(emitFn)
    {
      if result.Thenable? {
        log := log + [AwaitingThenable(result)];
      } else {
        resolveState.HandleValue(result);
        isFinished := true;
      }
    }

    /** `rejectFn` of the streaming mode (pipe.js:63-66). */
    method ProducerReject(error: Value)
      requires Valid()
      modifies this, rejectState
      ensures Valid()
      ensures Current() == StreamCall(old(Current()), RejectsWith(error))
      ensures Bindings() == old(Bindings()) && pending == old(pending) && emitFn == old(emitFn)
    {
      rejectState.HandleValue(error);
      isFinished := true;
    }

    /** The producer's synchronous calls during the streaming run, in
        order. */
    method RunStreaming(cs: seq<ProducerCall>)
      requires Valid()
      modifies this, resolveState, rejectState
      ensures Valid()
      ensures Current() == StreamCalls(old(Current()), cs)
      ensures Bindings() == old(Bindings()) && pending == old(pending) && emitFn == old(emitFn)
    {
      var i := 0;
      while i < |cs|
        invariant 0 <= i <= |cs|
        invariant Valid()
        invariant Current() == StreamCalls(old(Current()), cs[..i])
        invariant Bindings() == old(Bindings()) && pending == old(pending) && emitFn == old(emitFn)
      {
        assert cs[..i + 1][..i] == cs[..i];
        match cs[i] {
          case ResolvesWith(r) => ProducerResolve(r);
          case RejectsWith(e) => ProducerReject(e);
        }
        i := i + 1;
      }
      assert cs[..|cs|] == cs;
    }

    /** `performEmitFn` (pipe.js:39-53): unless finished, schedule one
        deferred emitter call with `next`; report `isFinished`. */
    method PerformEmit(next: ConsumerId) returns (finished: bool)
      modifies this
      ensures finished == isFinished == old(isFinished)
      ensures pending == if finished then old(pending) else old(pending) + [next]
      ensures log == if finished then old(log) else old(log) + [Scheduled(next)]
      ensures Bindings() == old(Bindings()) && emitFn == old(emitFn)
    {
      if !isFinished {
        pending := pending + [next];
        log := log + [Scheduled(next)];
      }
      finished := isFinished;
    }

    /** `composit.emit(next)`: a pull for the next element. The first pull
        (`initEmitStateFn`, pipe.js:54-70) switches the resolve side, runs
        the producer once (which may resolve or reject at once, any number
        of times), keeps what it returned as the emitter and rebinds
        `performEmit`; every pull then goes on as `performEmitFn`. */
    method Emit(next: ConsumerId, cs: seq<ProducerCall>, returned: Value) returns (finished: bool)
      requires Valid()
      modifies this, resolveState, rejectState
      ensures Valid()
      ensures emitBinding == PerformEmitFn && resolveBinding == Emitting
      ensures Bindings() == ModeStep(old(Bindings()), EmitRequest)
      ensures finished == isFinished
      ensures pending == if finished then old(pending) else old(pending) + [next]
      ensures old(emitBinding) == InitEmitState ==>
        var ran := StreamCalls(old(Current()).(log := old(log) + [ProducerRun(EmitArgs())]), cs);
        && emitFn == returned
        && Current() == ran.(log := ran.log + (if ran.finished then [] else [Scheduled(next)]))
      ensures old(emitBinding) == PerformEmitFn ==>
        && emitFn == old(emitFn)
        && Current() == old(Current()).(log := old(log) + (if old(isFinished) then [] else [Scheduled(next)]))
    {
      if emitBinding == InitEmitState {
        resolveBinding := Emitting;
        producerRuns := producerRuns + 1;
        log := log + [ProducerRun(EmitArgs())];
        RunStreaming(cs);
        emitFn := returned;
        emitBinding := PerformEmitFn;
      }
      finished := PerformEmit(next);
    }

    /** The producer's synchronous calls when a `then` before the first
        pull runs it, in order. */
    method RunDirect(k: ConsumerId, cs: seq<ProducerCall>)
      requires Valid()
      modifies this, rejectState
      ensures Valid()
      ensures Direct(rejectState.Traced(), log) == DirectCalls(k, old(Direct(rejectState.Traced(), log)), cs)
      ensures Bindings() == old(Bindings()) && isFinished == old(isFinished)
      ensures pending == old(pending) && emitFn == old(emitFn)
    {
      var i := 0;
      while i < |cs|
        invariant 0 <= i <= |cs|
        invariant Valid()
        invariant Direct(rejectState.Traced(), log) == DirectCalls(k, old(Direct(rejectState.Traced(), log)), cs[..i])
        invariant Bindings() == old(Bindings()) && isFinished == old(isFinished)
        invariant pending == old(pending) && emitFn == old(emitFn)
      {
        assert cs[..i + 1][..i] == cs[..i];
        match cs[i] {
          case ResolvesWith(r) =>
            log := log + [if r.Thenable? then AwaitingThenable(r) else Delivered(Call(k, r))];
          case RejectsWith(e) =>
            rejectState.HandleValue(e);
        }
        i := i + 1;
      }
      assert cs[..|cs|] == cs;
    }

    /** `composit.resolve(k)`: a `then` registering on the stage. Before
        any pull for an element (`nonEmittingPerformResolve`, pipe.js:79-90)
        it runs the producer again, with a `resolve` that hands a plain
        result straight to `k` and a `reject` that goes to the reject cell;
        afterwards (`emittingPerformResolve`) it registers `k` on the
        resolve cell. */
    method Resolve(k: ConsumerId, cs: seq<ProducerCall>)
      requires Valid()
      modifies this, resolveState, rejectState
      ensures Valid()
      ensures Bindings() == ModeStep(old(Bindings()), ResolveRequest)
      ensures isFinished == old(isFinished) && pending == old(pending) && emitFn == old(emitFn)
      ensures old(resolveBinding) == Emitting ==>
        && log == old(log)
        && resolveState.Traced() == Attach(old(resolveState.Traced()), k)
        && rejectState.Traced() == old(rejectState.Traced())
      ensures old(resolveBinding) == NonEmitting ==>
        && resolveState.Traced() == old(resolveState.Traced())
        && Direct(rejectState.Traced(), log)
           == DirectCalls(k, Direct(old(rejectState.Traced()), old(log) + [ProducerRun(NonEmittingArgs())]), cs)
    {
      if resolveBinding == Emitting {
        resolveState.HandleCallback(k);
      } else {
        producerRuns := producerRuns + 1;
        log := log + [ProducerRun(NonEmittingArgs())];
        RunDirect(k, cs);
      }
    }

    /** `composit.reject(k)` (pipe.js:110-112). */
    method Reject(k: ConsumerId)
      requires Valid()
      modifies rejectState
      ensures Valid()
      ensures rejectState.Traced() == Attach(old(rejectState.Traced()), k)
      ensures resolveState.Traced() == old(resolveState.Traced())
    {
      rejectState.HandleCallback(k);
    }

    /** The timer of the oldest deferred pull fires (pipe.js:41-50) and
        the emitter runs. */
    method RunDeferred(action: EmitterAction)
      requires Valid() && pending != []
      modifies this, resolveState, rejectState
      ensures Valid()
      ensures pending == old(pending)[1..]
      ensures Current() == EmitterStep(old(pending)[0], old(Current()), action)
      ensures Bindings() == old(Bindings()) && emitFn == old(emitFn)
    {
      var next := pending[0];
      pending := pending[1..];
      match action {
        case CallsNext(r) =>
          log := log + [if r.Thenable? then AwaitingThenable(r) else Delivered(Call(next, r))];
        case CallsProducer(c) =>
          match c {
            case ResolvesWith(r) => ProducerResolve(r);
            case RejectsWith(e) => ProducerReject(e);
          }
        case Quiet =>
      }
    }
  }
}
