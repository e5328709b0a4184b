/** `pipe.all` (pipe.js:196-222): an indexed accumulator with a count and a
    rejection latch. */
module AllCombinator {
  import opened JsValue
  import opened Settlements

  datatype AllState = AllState(acc: map<nat, Value>, count: nat, wasRejected: bool)

  const AllStart: AllState := AllState(map[], 0, false)

  /** The state after some settlements and the calls they made. */
  datatype AllOut = AllOut(state: AllState, calls: seq<Settled<map<nat, Value>>>)

  /** One settlement seen by `all`'s callbacks for `length` items. */
  function AllStep(s: AllState, length: nat, ev: Settlement): (r: AllOut)
    ensures s.wasRejected ==> r == AllOut(s, [])
    ensures r.state.wasRejected == (s.wasRejected || ev.Failed?)
    ensures |r.calls| <= 1
    ensures !s.wasRejected && ev.Fulfilled? ==>
      && r.state.acc == s.acc[ev.idx := ev.value]
      && r.state.count == s.count + 1
      && (r.calls != [] <==> s.count + 1 == length)
      && (r.calls != [] ==> r.calls == [Resolved(r.state.acc)])
    ensures !s.wasRejected && ev.Failed? ==>
      r.state.acc == s.acc && r.state.count == s.count && r.calls == [Rejected(ev.error)]
  {
    if s.wasRejected then AllOut(s, [])
    else match ev
      case Fulfilled(i, v) =>
        var acc := s.acc[i := v];
        var count := s.count + 1;
        AllOut(AllState(acc, count, false), if count == length then [Resolved(acc)] else [])
      case Failed(e) =>
        AllOut(s.(wasRejected := true), [Rejected(e)])
  }

  /** A run of settlements, folded from the left. */
  function AllRun(s: AllState, length: nat, evs: seq<Settlement>): AllOut
    decreases |evs|
  {
    if evs == [] then AllOut(s, [])
    else
      var r1 := AllRun(s, length, evs[..|evs| - 1]);
      var r2 := AllStep(r1.state, length, evs[|evs| - 1]);
      AllOut(r2.state, r1.calls + r2.calls)
  }

  lemma {:induction false} AllRunAppend(s: AllState, length: nat, a: seq<Settlement>, b: seq<Settlement>)
    ensures AllRun(s, length, a + b).state == AllRun(AllRun(s, length, a).state, length, b).state
    ensures AllRun(s, length, a + b).calls
            == AllRun(s, length, a).calls + AllRun(AllRun(s, length, a).state, length, b).calls
    decreases |b|
  {
    if b == [] {
      assert a + b == a;
    } else {
      assert (a + b)[..|a + b| - 1] == a + b[..|b| - 1];
      AllRunAppend(s, length, a, b[..|b| - 1]);
    }
  }

  /** After a rejection, every later resolution or rejection is ignored. */
  lemma {:induction false} AllIgnoresAfterRejection(s: AllState, length: nat, evs: seq<Settlement>)
    requires s.wasRejected
    ensures AllRun(s, length, evs) == AllOut(s, [])
    decreases |evs|
  {
    if evs != [] {
      AllIgnoresAfterRejection(s, length, evs[..|evs| - 1]);
    }
  }

  lemma {:induction false} AllNotRejectedWithoutFailure(s: AllState, length: nat, evs: seq<Settlement>)
    requires !s.wasRejected
    requires forall j :: 0 <= j < |evs| ==> evs[j].Fulfilled?
    ensures !AllRun(s, length, evs).state.wasRejected
    decreases |evs|
  {
    if evs != [] {
      AllNotRejectedWithoutFailure(s, length, evs[..|evs| - 1]);
    }
  }

  /** The first rejection calls `reject` with its error exactly once, and
      nothing after it calls `resolve` or `reject` again. */
  lemma AllFirstRejectionWins(length: nat, before: seq<Settlement>, e: Value, after: seq<Settlement>)
    requires forall j :: 0 <= j < |before| ==> before[j].Fulfilled?
    ensures AllRun(AllStart, length, before + [Failed(e)] + after).calls
            == AllRun(AllStart, length, before).calls + [Rejected(e)]
  {
    var s1 := AllRun(AllStart, length, before).state;
    AllNotRejectedWithoutFailure(AllStart, length, before);
    AllRunAppend(AllStart, length, before, [Failed(e)]);
    assert [Failed(e)][..0] == [];
    assert AllRun(s1, length, [Failed(e)]) == AllOut(s1.(wasRejected := true), [Rejected(e)]);
    AllRunAppend(AllStart, length, before + [Failed(e)], after);
    AllIgnoresAfterRejection(s1.(wasRejected := true), length, after);
  }

  /** With no items (`length` 0), `resolve` is never called. */
  lemma {:induction false} AllEmptyNeverResolves(s: AllState, evs: seq<Settlement>, k: nat)
    requires k < |AllRun(s, 0, evs).calls|
    ensures AllRun(s, 0, evs).calls[k].Rejected?
    decreases |evs|
  {
    var r1 := AllRun(s, 0, evs[..|evs| - 1]);
    if k < |r1.calls| {
      AllEmptyNeverResolves(s, evs[..|evs| - 1], k);
    }
  }

  /** Some settlement in `evs` resolves item `i`. */
  ghost predicate Settles(evs: seq<Settlement>, i: nat)
  {
    exists j :: 0 <= j < |evs| && evs[j].Fulfilled? && evs[j].idx == i
  }

  /** Each item settles exactly once: every settlement is a resolution of
      an index in range, and no index settles twice. */
  ghost predicate OncePerIndex(length: nat, evs: seq<Settlement>)
  {
    && (forall j :: 0 <= j < |evs| ==> evs[j].Fulfilled? && evs[j].idx < length)
    && (forall j, j' :: 0 <= j < j' < |evs| ==> evs[j].idx != evs[j'].idx)
  }

  lemma AllRunSnoc(s: AllState, length: nat, evs: seq<Settlement>, ev: Settlement)
    ensures AllRun(s, length, evs + [ev])
            == AllOut(AllStep(AllRun(s, length, evs).state, length, ev).state,
                      AllRun(s, length, evs).calls + AllStep(AllRun(s, length, evs).state, length, ev).calls)
  {
    assert (evs + [ev])[..|evs|] == evs;
  }

  /** `acc` holds each settled value at its item's index, and no index
      that has not settled. */
  ghost predicate Filled(acc: map<nat, Value>, length: nat, evs: seq<Settlement>)
  {
    && (forall i :: i in acc ==> i < length && Settles(evs, i))
    && (forall j :: 0 <= j < |evs| ==> evs[j].Fulfilled? && evs[j].idx in acc && acc[evs[j].idx] == evs[j].value)
  }

  lemma FilledSnoc(acc: map<nat, Value>, length: nat, pre: seq<Settlement>, ev: Settlement)
    requires ev.Fulfilled?
    requires OncePerIndex(length, pre + [ev])
    requires Filled(acc, length, pre)
    ensures Filled(acc[ev.idx := ev.value], length, pre + [ev])
  {
    var evs, acc' := pre + [ev], acc[ev.idx := ev.value];
    assert evs[|pre|] == ev;
    forall j | 0 <= j < |evs|
      ensures evs[j].Fulfilled? && evs[j].idx in acc' && acc'[evs[j].idx] == evs[j].value
    {
      if j < |pre| {
        assert evs[j] == pre[j];
        assert evs[j].idx != evs[|pre|].idx;
      }
    }
    forall i | i in acc'
      ensures i < length && Settles(evs, i)
    {
      if i == ev.idx {
        assert evs[|pre|].Fulfilled? && evs[|pre|].idx == i;
      } else {
        assert Settles(pre, i);
        var j :| 0 <= j < |pre| && pre[j].Fulfilled? && pre[j].idx == i;
        assert evs[j] == pre[j];
      }
    }
  }

  /** Dropping the last settlement keeps each index settling at most once. */
  lemma OncePerIndexSnoc(length: nat, pre: seq<Settlement>, ev: Settlement)
    requires OncePerIndex(length, pre + [ev])
    ensures OncePerIndex(length, pre) && ev.Fulfilled? && ev.idx < length
    ensures !Settles(pre, ev.idx)
  {
    var evs := pre + [ev];
    assert forall j :: 0 <= j < |pre| ==> pre[j] == evs[j] && evs[j].idx != evs[|pre|].idx;
    assert evs[|pre|] == ev;
  }

  /** Settling distinct indices, none twice, counts each settlement and
      never rejects; `resolve` is called only once the count reaches
      `length`. */
  lemma {:induction false} AllPrefixCount(length: nat, evs: seq<Settlement>)
    requires OncePerIndex(length, evs) && |evs| <= length
    ensures AllRun(AllStart, length, evs).state.count == |evs|
    ensures !AllRun(AllStart, length, evs).state.wasRejected
    ensures AllRun(AllStart, length, evs).calls
            == if |evs| == length && length > 0 then [Resolved(AllRun(AllStart, length, evs).state.acc)] else []
    decreases |evs|
  {
    if evs != [] {
      var pre, ev := evs[..|evs| - 1], evs[|evs| - 1];
      assert evs == pre + [ev];
      OncePerIndexSnoc(length, pre, ev);
      AllPrefixCount(length, pre);
      AllRunSnoc(AllStart, length, pre, ev);
    }
  }

  /** Settling distinct indices, none twice, fills exactly those indices;
      `resolve` is called only once the count reaches `length`. */
  lemma {:induction false} AllPrefix(length: nat, evs: seq<Settlement>)
    requires OncePerIndex(length, evs) && |evs| <= length
    ensures AllRun(AllStart, length, evs).state.count == |evs|
    ensures !AllRun(AllStart, length, evs).state.wasRejected
    ensures Filled(AllRun(AllStart, length, evs).state.acc, length, evs)
    ensures AllRun(AllStart, length, evs).calls
            == if |evs| == length && length > 0 then [Resolved(AllRun(AllStart, length, evs).state.acc)] else []
    decreases |evs|
  {
    AllPrefixCount(length, evs);
    if evs != [] {
      var pre, ev := evs[..|evs| - 1], evs[|evs| - 1];
      assert evs == pre + [ev];
      OncePerIndexSnoc(length, pre, ev);
      AllPrefix(length, pre);
      var r1 := AllRun(AllStart, length, pre);
      AllRunSnoc(AllStart, length, pre, ev);
      assert AllRun(AllStart, length, evs).state.acc == r1.state.acc[ev.idx := ev.value];
      FilledSnoc(r1.state.acc, length, pre, ev);
    }
  }

  /** The indices `evs` resolves. */
  ghost function SettledIndices(evs: seq<Settlement>): (s: set<nat>)
    ensures forall i :: i in s ==> Settles(evs, i)
  {
    if evs == [] then {}
    else
      var pre, ev := evs[..|evs| - 1], evs[|evs| - 1];
      var s := SettledIndices(pre) + (if ev.Fulfilled? then {ev.idx} else {});
      assert forall i :: Settles(pre, i) ==> Settles(evs, i) by {
        forall i | Settles(pre, i)
          ensures Settles(evs, i)
        {
          var j :| 0 <= j < |pre| && pre[j].Fulfilled? && pre[j].idx == i;
          assert evs[j] == pre[j];
        }
      }
      assert ev == evs[|evs| - 1];
      s
  }

  /** The indices below `n`. */
  ghost function Below(n: nat): (s: set<nat>)
    ensures |s| == n
    ensures forall i: nat :: i in s <==> i < n
  {
    if n == 0 then {} else Below(n - 1) + {n - 1}
  }

  /** Distinct settlements of indices below `length` settle as many
      indices as there are settlements, all of them below `length`. */
  lemma {:induction false} SettledIndicesCount(length: nat, evs: seq<Settlement>)
    requires OncePerIndex(length, evs)
    ensures |SettledIndices(evs)| == |evs|
    ensures SettledIndices(evs) <= Below(length)
  {
    if evs != [] {
      var pre, ev := evs[..|evs| - 1], evs[|evs| - 1];
      assert evs == pre + [ev];
      OncePerIndexSnoc(length, pre, ev);
      SettledIndicesCount(length, pre);
      assert SettledIndices(evs) == SettledIndices(pre) + {ev.idx};
      assert ev.idx !in SettledIndices(pre);
    }
  }

  /** So when there are exactly `length` settlements, no index settling
      twice, every index settles: each item settles exactly once. */
  lemma EveryIndexSettles(length: nat, evs: seq<Settlement>)
    requires OncePerIndex(length, evs) && |evs| == length
    ensures forall i: nat :: i < length ==> Settles(evs, i)
  {
    var s, b := SettledIndices(evs), Below(length);
    SettledIndicesCount(length, evs);
    assert b == s + (b - s);
    assert |b - s| == 0;
    forall i: nat | i < length
      ensures Settles(evs, i)
    {
      assert i in b;
    }
  }

  /** When every item settles exactly once, `resolve` is called exactly
      once, with each value at its item's index, whatever the order in
      which the items settled. */
  lemma AllResolvesInInputOrder(length: nat, evs: seq<Settlement>)
    requires OncePerIndex(length, evs) && |evs| == length && length > 0
    ensures |AllRun(AllStart, length, evs).calls| == 1
    ensures AllRun(AllStart, length, evs).calls[0].Resolved?
    ensures forall i: nat :: i in AllRun(AllStart, length, evs).calls[0].value <==> i < length
    ensures forall j :: 0 <= j < |evs| ==> AllRun(AllStart, length, evs).calls[0].value[evs[j].idx] == evs[j].value
  {
    AllPrefix(length, evs);
    EveryIndexSettles(length, evs);
    forall i: nat | i < length
      ensures i in AllRun(AllStart, length, evs).calls[0].value
    {
      assert Settles(evs, i);
      var j :| 0 <= j < |evs| && evs[j].Fulfilled? && evs[j].idx == i;
    }
  }

  /** Walking one more item adds its settlement, if it is plain. */
  lemma ItemEventsNext(items: seq<Value>, i: nat, s: AllState, length: nat)
    requires i < |items|
    ensures items[i].Thenable? ==> AllRun(s, length, ItemEvents(items, i + 1)) == AllRun(s, length, ItemEvents(items, i))
    ensures !items[i].Thenable? ==>
      var r := AllRun(s, length, ItemEvents(items, i));
      var r2 := AllStep(r.state, length, Fulfilled(i, items[i]));
      AllRun(s, length, ItemEvents(items, i + 1)) == AllOut(r2.state, r.calls + r2.calls)
  {
    var evs := ItemEvents(items, i + 1);
    if !items[i].Thenable? {
      assert evs[..|evs| - 1] == ItemEvents(items, i);
    }
  }

  /** One more item of the walk: a thenable is only registered, a plain
      item settles at its own index, and neither rejects. */
  lemma WalkStep(items: seq<Value>, i: nat)
    requires i < |items|
    requires !AllRun(AllStart, |items|, ItemEvents(items, i)).state.wasRejected
    ensures var r := AllRun(AllStart, |items|, ItemEvents(items, i));
      && (items[i].Thenable? ==>
            && AllRun(AllStart, |items|, ItemEvents(items, i + 1)) == r
            && Thenables(items, i + 1) == Thenables(items, i) + [i])
      && (!items[i].Thenable? ==>
            var r2 := AllStep(r.state, |items|, Fulfilled(i, items[i]));
            && AllRun(AllStart, |items|, ItemEvents(items, i + 1)) == AllOut(r2.state, r.calls + r2.calls)
            && !r2.state.wasRejected
            && Thenables(items, i + 1) == Thenables(items, i))
  {
    ItemEventsNext(items, i, AllStart, |items|);
  }

  /** The closure variables of `all`'s producer and the calls it made. */
  class All {
    const items: seq<Value>
    var acc: map<nat, Value>
    var count: nat
    var wasRejected: bool
    /** Calls made to the producer's `resolve` / `reject`. */
    var signals: seq<Settled<map<nat, Value>>>
    /** Indices of the items `then`/`catch` were registered on. */
    var awaiting: seq<nat>

    function State(): AllState
      reads this
    {
      AllState(acc, count, wasRejected)
    }

    constructor (items: seq<Value>)
      ensures this.items == items && State() == AllStart && signals == [] && awaiting == []
    {
      this.items := items;
      acc, count, wasRejected := map[], 0, false;
      signals, awaiting := [], [];
    }

    /** `composeThenFn(idx)(value)`. */
    method OnValue(idx: nat, value: Value)
      modifies this
      ensures State() == AllStep(old(State()), |items|, Fulfilled(idx, value)).state
      ensures signals == old(signals) + AllStep(old(State()), |items|, Fulfilled(idx, value)).calls
      ensures awaiting == old(awaiting)
    {
      if wasRejected {
        return;
      }
      acc := acc[idx := value];
      count := count + 1;
      if count == |items| {
        signals := signals + [Resolved(acc)];
      }
    }

    /** `composeCatchFn()(err)`. */
    method OnError(err: Value)
      modifies this
      ensures State() == AllStep(old(State()), |items|, Failed(err)).state
      ensures signals == old(signals) + AllStep(old(State()), |items|, Failed(err)).calls
      ensures awaiting == old(awaiting)
    {
      if wasRejected {
        return;
      }
      wasRejected := true;
      signals := signals + [Rejected(err)];
    }

    /** The `allItems.forEach` walk, run once when the producer starts.
        It throws a TypeError at the first nullish item, after handling the
        items before it. */
    method Start() returns (thrown: Option<Value>)
      requires State() == AllStart
      modifies this
      ensures State() == AllRun(AllStart, |items|, ItemEvents(items, FirstNullish(items))).state
      ensures signals == old(signals) + AllRun(AllStart, |items|, ItemEvents(items, FirstNullish(items))).calls
      ensures awaiting == old(awaiting) + Thenables(items, FirstNullish(items))
      ensures thrown == if FirstNullish(items) < |items| then Some(TypeError) else None
    {
      ghost var stop := FirstNullish(items);
      ghost var signals0, awaiting0 := signals, awaiting;
      var i := 0;
      thrown := None;
      while i < |items|
        invariant i <= stop
        invariant WalkedTo(i, signals0, awaiting0)
      {
        if !wasRejected {
          if Nullish(items[i]) {
            assert i == stop;
            thrown := Some(TypeError);
            return;
          }
          assert i < stop;
          WalkItem(i, signals0, awaiting0);
        }
        i := i + 1;
      }
      assert i == stop;
    }

    /** The walk has handled `items[..i]`; no rejection can happen during
        it. */
    ghost predicate WalkedTo(i: nat, signals0: seq<Settled<map<nat, Value>>>, awaiting0: seq<nat>)
      reads this
    {
      && i <= |items|
      && !wasRejected
      && State() == AllRun(AllStart, |items|, ItemEvents(items, i)).state
      && signals == signals0 + AllRun(AllStart, |items|, ItemEvents(items, i)).calls
      && awaiting == awaiting0 + Thenables(items, i)
    }

    /** One item of the walk that is not nullish. */
    method WalkItem(i: nat, ghost signals0: seq<Settled<map<nat, Value>>>, ghost awaiting0: seq<nat>)
      requires i < |items|
      requires WalkedTo(i, signals0, awaiting0)
      modifies this
      ensures WalkedTo(i + 1, signals0, awaiting0)
    {
      WalkStep(items, i);
      if items[i].Thenable? {
        awaiting := awaiting + [i];
      } else {
        OnValue(i, items[i]);
      }
    }
  }

}
