/** Shared vocabulary of the document-store layer: optional values, the
    errors the storages return, Go's `(*T, error)` result triples, and the
    two pieces of store semantics both storages rely on: a fixed-order
    scan with an equality filter (`Find` plus `cursor.Next`) and the
    in-order application of a `$set` document. */
module Mongo {

  /** An instant read from the service clock; the clock itself is an input. */
  type Time = nat

  datatype Option<+T> = None | Some(value: T)

  /** The failures the storages surface. `BadCast` stands for an unchecked
      type assertion on a stored field that does not hold (in Go a runtime
      panic: the call produces no result). */
  datatype Error =
    | InvalidObjectId
    | DuplicateKey
    | BadCast(field: string)

  /** A `(*T, error)` pair as the storages return it: a record, the empty
      result `(nil, nil)`, or an error. */
  datatype Reply<+T> = Found(value: T) | Nil | Failed(error: Error)

  /** A result that is never `(nil, nil)`. */
  datatype Result<+T> = Ok(value: T) | Err(error: Error)

  /** `pb.Empty{}` */
  datatype Empty = Empty

  /** The documents a `Find` returns, in the scan order `order`: every id
      of `order` whose document satisfies `selects`. */
  function Matching<K, D>(docs: map<K, D>, order: seq<K>, selects: D -> bool): (m: seq<(K, D)>)
    ensures |m| <= |order|
  {
    if order == [] then []
    else
      var id := order[|order| - 1];
      Matching(docs, order[..|order| - 1], selects)
        + (if id in docs && selects(docs[id]) then [(id, docs[id])] else [])
  }

  /** Every entry of `m` is a stored document, under its own id, that
      satisfies `selects`. */
  ghost predicate StoredAndSelected<K, D>(docs: map<K, D>, m: seq<(K, D)>, selects: D -> bool) {
    forall k :: 0 <= k < |m| ==> m[k].0 in docs && docs[m[k].0] == m[k].1 && selects(m[k].1)
  }

  /** Every returned document is stored under its id and satisfies the
      filter. */
  lemma {:induction false} MatchingSound<K, D>(docs: map<K, D>, order: seq<K>, selects: D -> bool)
    ensures StoredAndSelected(docs, Matching(docs, order, selects), selects)
  {
    if order != [] {
      var init, id := order[..|order| - 1], order[|order| - 1];
      MatchingSound(docs, init, selects);
      var m0 := Matching(docs, init, selects);
      if id in docs && selects(docs[id]) {
        assert Matching(docs, order, selects) == m0 + [(id, docs[id])];
      } else {
        assert Matching(docs, order, selects) == m0;
      }
    }
  }

  /** Every stored document that satisfies the filter is returned: the scan
      has no other exclusion (soft-deleted documents included). */
  lemma {:induction false} MatchingComplete<K, D>(docs: map<K, D>, order: seq<K>, selects: D -> bool, id: K)
    requires id in order && id in docs && selects(docs[id])
    ensures (id, docs[id]) in Matching(docs, order, selects)
  {
    var last := order[|order| - 1];
    if id != last {
      var init := order[..|order| - 1];
      assert order == init + [last];
      assert id in init;
      MatchingComplete(docs, init, selects, id);
    }
  }

  /** A filter that every document satisfies returns the whole collection,
      each document under its id, in the scan's order. */
  lemma {:induction false} MatchingEverything<K, D>(docs: map<K, D>, order: seq<K>, selects: D -> bool)
    requires forall id :: id in order ==> id in docs && selects(docs[id])
    ensures Matching(docs, order, selects)
            == seq(|order|, i requires 0 <= i < |order| && order[i] in docs => (order[i], docs[order[i]]))
  {
    if order != [] {
      var init, last := order[..|order| - 1], order[|order| - 1];
      assert forall id :: id in init ==> id in order;
      MatchingEverything(docs, init, selects);
      assert last in order;
      var whole := seq(|order|, i requires 0 <= i < |order| && order[i] in docs => (order[i], docs[order[i]]));
      var front := seq(|init|, i requires 0 <= i < |init| && init[i] in docs => (init[i], docs[init[i]]));
      assert Matching(docs, order, selects) == front + [(last, docs[last])];
      assert whole == front + [(last, docs[last])];
    }
  }

  /** The effect of a `$set` document: its entries applied in order. */
  function ApplyAll<D, F>(apply: (D, F) -> D, d: D, fs: seq<F>): D
  {
    if fs == [] then d else ApplyAll(apply, apply(d, fs[0]), fs[1..])
  }

  /** Applying two `$set` lists one after the other is applying their
      concatenation. */
  lemma {:induction false} ApplyAllConcat<D, F>(apply: (D, F) -> D, d: D, a: seq<F>, b: seq<F>)
    ensures ApplyAll(apply, d, a + b) == ApplyAll(apply, ApplyAll(apply, d, a), b)
  {
    if a == [] {
      assert a + b == b;
    } else {
      assert (a + b)[0] == a[0];
      assert (a + b)[1..] == a[1..] + b;
      ApplyAllConcat(apply, apply(d, a[0]), a[1..], b);
    }
  }

  /** A `$set` entry that is appended only when `cond` holds. */
  function Step<F>(cond: bool, f: F): seq<F>
  {
    if cond then [f] else []
  }

  /** Appending one optional entry to a `$set` list applies it last. */
  lemma ApplyStep<D, F>(apply: (D, F) -> D, d: D, prefix: seq<F>, cond: bool, f: F)
    ensures ApplyAll(apply, d, prefix + Step(cond, f))
            == if cond then apply(ApplyAll(apply, d, prefix), f)
               else ApplyAll(apply, d, prefix)
  {
    ApplyAllConcat(apply, d, prefix, Step(cond, f));
  }
}
