/** What `pipe.all` and `pipe.race` (pipe.js:196-245; the halfway variant
    has the same text) have in common. Each is a producer whose body walks
    the items once, settles plain items at once and registers `then` /
    `catch` on the others; the closure variables it keeps decide which
    later settlements are forwarded to the producer's `resolve` /
    `reject`. */
module Settlements {
  import opened JsValue

  /** A settlement reaching a combinator: item `idx` resolved with `value`
      (its `then` callback ran), or some item rejected with `error` (its
      `catch` callback ran). */
  datatype Settlement = Fulfilled(idx: nat, value: Value) | Failed(error: Value)

  /** A call the combinator makes to its producer's `resolve` or `reject`. */
  datatype Settled<T> = Resolved(value: T) | Rejected(error: Value)

  /** `item.then && item.catch` throws on `null` / `undefined`. */
  predicate Nullish(v: Value)
  {
    v == Undefined || v == Null
  }

  /** The settlements the item walk makes by itself over `items[..n]`: a
      plain item settles at its own index; a thenable is only registered. */
  function ItemEvents(items: seq<Value>, n: nat): (evs: seq<Settlement>)
    requires n <= |items|
    ensures forall j :: 0 <= j < |evs| ==> evs[j].Fulfilled? && evs[j].idx < n
  {
    if n == 0 then []
    else if items[n - 1].Thenable? then ItemEvents(items, n - 1)
    else ItemEvents(items, n - 1) + [Fulfilled(n - 1, items[n - 1])]
  }

  /** The indices of the thenables among `items[..n]`, in order. */
  function Thenables(items: seq<Value>, n: nat): seq<nat>
    requires n <= |items|
  {
    if n == 0 then []
    else if items[n - 1].Thenable? then Thenables(items, n - 1) + [n - 1]
    else Thenables(items, n - 1)
  }

  /** Where the walk stops: the first nullish item, or the end. */
  function FirstNullish(items: seq<Value>): (k: nat)
    ensures k <= |items|
    ensures forall j :: 0 <= j < k ==> !Nullish(items[j])
    ensures k < |items| ==> Nullish(items[k])
  {
    if items == [] then 0
    else if Nullish(items[0]) then 0
    else 1 + FirstNullish(items[1..])
  }
}
