/** The emitter `pipe.from` builds (pipe.js:247-255, and the same cursor in
    pipe.halfway.monadic.stream.js:200-208): an index into the collection
    that hands one element per pull to `next`, and calls `resolve()` on
    every pull after the end. */
module FromCursor {
  import opened JsValue

  /** What one pull of the emitter does: `next(collection[idx])`, or
      `resolve()` (with no argument, so `undefined`). */
  datatype Signal = Next(value: Value) | Resolve(result: Value)

  /** One pull at cursor `idx`: the signal and the new cursor. */
  function Pull(collection: seq<Value>, idx: nat): (r: (Signal, nat))
    requires idx <= |collection|
    ensures r.1 <= |collection|
    ensures idx < |collection| ==> r == (Next(collection[idx]), idx + 1)
    ensures idx == |collection| ==> r == (Resolve(Undefined), idx)
  {
    if idx == |collection| then (Resolve(Undefined), idx)
    else (Next(collection[idx]), idx + 1)
  }

  /** The signals of `n` consecutive pulls starting at cursor `idx`. */
  function Pulls(collection: seq<Value>, idx: nat, n: nat): seq<Signal>
    requires idx <= |collection|
    decreases n
  {
    if n == 0 then []
    else
      var (sig, idx') := Pull(collection, idx);
      [sig] + Pulls(collection, idx', n - 1)
  }

  function Emitted(vs: seq<Value>): (sigs: seq<Signal>)
    ensures |sigs| == |vs|
    ensures forall i :: 0 <= i < |vs| ==> sigs[i] == Next(vs[i])
  {
    if vs == [] then [] else [Next(vs[0])] + Emitted(vs[1..])
  }

  function Resolves(n: nat): (sigs: seq<Signal>)
    ensures |sigs| == n
    ensures forall i :: 0 <= i < n ==> sigs[i] == Resolve(Undefined)
  {
    if n == 0 then [] else [Resolve(Undefined)] + Resolves(n - 1)
  }

  /** Once exhausted, every further pull resolves and the cursor stays. */
  lemma {:induction false} ExhaustedAlwaysResolves(collection: seq<Value>, n: nat)
    ensures Pulls(collection, |collection|, n) == Resolves(n)
    decreases n
  {
    if n > 0 {
      ExhaustedAlwaysResolves(collection, n - 1);
    }
  }

  /** From cursor `idx`, the next pulls emit the remaining elements in
      order, one per pull, and then resolve on every pull after that. */
  lemma {:induction false} PullsFrom(collection: seq<Value>, idx: nat, m: nat)
    requires idx <= |collection|
    ensures Pulls(collection, idx, |collection| - idx + m)
            == Emitted(collection[idx..]) + Resolves(m)
    decreases |collection| - idx
  {
    if idx == |collection| {
      ExhaustedAlwaysResolves(collection, m);
      assert collection[idx..] == [];
    } else {
      PullsFrom(collection, idx + 1, m);
      assert collection[idx..][1..] == collection[idx + 1..];
    }
  }

  /** `length` pulls of a fresh cursor emit the whole collection in order;
      any further pull resolves. */
  lemma FromEmitsInOrder(collection: seq<Value>, m: nat)
    ensures Pulls(collection, 0, |collection| + m) == Emitted(collection) + Resolves(m)
  {
    PullsFrom(collection, 0, m);
    assert collection[0..] == collection;
  }

  /** The cursor after `n` pulls of a fresh emitter. */
  function CursorAfter(collection: seq<Value>, n: nat): (idx: nat)
    ensures idx <= |collection|
  {
    if n < |collection| then n else |collection|
  }

  /** The signals of `n + 1` pulls are those of `n` pulls followed by one
      pull at the cursor the first `n` left. */
  lemma {:induction false} PullsSnoc(collection: seq<Value>, idx: nat, n: nat)
    requires idx <= |collection|
    ensures Pulls(collection, idx, n + 1)
            == Pulls(collection, idx, n) + [Pull(collection, Advance(collection, idx, n)).0]
    decreases n
  {
    if n > 0 {
      var (sig, idx') := Pull(collection, idx);
      PullsSnoc(collection, idx', n - 1);
    }
  }

  function Advance(collection: seq<Value>, idx: nat, n: nat): (r: nat)
    requires idx <= |collection|
    ensures r <= |collection|
    decreases n
  {
    if n == 0 then idx else Advance(collection, Pull(collection, idx).1, n - 1)
  }

  lemma {:induction false} AdvanceFromStart(collection: seq<Value>, n: nat)
    ensures Advance(collection, 0, n) == CursorAfter(collection, n)
  {
    AdvanceFrom(collection, 0, n);
  }

  lemma {:induction false} AdvanceFrom(collection: seq<Value>, idx: nat, n: nat)
    requires idx <= |collection|
    ensures Advance(collection, idx, n) == if idx + n < |collection| then idx + n else |collection|
    decreases n
  {
    if n > 0 {
      AdvanceFrom(collection, Pull(collection, idx).1, n - 1);
    }
  }

  /** The closure state of the emitter: the captured collection and the
      `idx` variable it advances. `signals` records what each pull did. */
  class Cursor {
    const collection: seq<Value>
    var idx: nat
    var signals: seq<Signal>

    ghost predicate Valid()
      reads this
    {
      && idx == CursorAfter(collection, |signals|)
      && signals == Pulls(collection, 0, |signals|)
    }

    /** After `length + m` calls the emitter has passed every element to
        `next` in order and then called `resolve()` `m` times. */
    lemma DrainedInOrder(m: nat)
      requires Valid() && |signals| == |collection| + m
      ensures signals == Emitted(collection) + Resolves(m)
    {
      FromEmitsInOrder(collection, m);
    }

    /** `let idx = 0`. */
    constructor (collection: seq<Value>)
      ensures Valid() && this.collection == collection && idx == 0 && signals == []
    {
      this.collection := collection;
      idx := 0;
      signals := [];
    }

    /** One call of the emitter with `next`. */
    method Emit() returns (sig: Signal)
      requires Valid()
      modifies this
      ensures Valid()
      ensures (sig, idx) == Pull(collection, old(idx))
      ensures signals == Pulls(collection, 0, |signals|)
      ensures signals == old(signals) + [sig]
    {
      if idx == |collection| {
        sig := Resolve(Undefined);
      } else {
        sig := Next(collection[idx]);
        idx := idx + 1;
      }
      PullsSnoc(collection, 0, |signals|);
      AdvanceFromStart(collection, |signals|);
      signals := signals + [sig];
    }
  }
}
