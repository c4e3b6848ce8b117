/** What the polling queries share: the rows that are due, in an order, up to a limit. */
module Polling {

  /** Any two rows compare, and comparisons chain. */
  ghost predicate IsOrder<R(!new)>(noLater: (R, R) -> bool) {
    && (forall a: R, b: R :: noLater(a, b) || noLater(b, a))
    && (forall a: R, b: R, c: R :: noLater(a, b) && noLater(b, c) ==> noLater(a, c))
  }

  /** In order, no row twice, and nothing due left out but later rows beyond the limit. */
  predicate IsFetched<R>(rows: map<nat, R>, due: set<nat>, noLater: (R, R) -> bool, limit: nat, ids: seq<nat>)
    requires due <= rows.Keys
  {
    && |ids| <= limit
    && (forall k | 0 <= k < |ids| :: ids[k] in due)
    && (forall j, k | 0 <= j < k < |ids| :: ids[j] != ids[k])
    && (forall j, k | 0 <= j < k < |ids| :: noLater(rows[ids[j]], rows[ids[k]]))
    && (forall i | i in due && i !in ids ::
          |ids| == limit && forall k | 0 <= k < |ids| :: noLater(rows[ids[k]], rows[i]))
  }

  lemma {:induction false} EarliestExists<R(!new)>(rows: map<nat, R>, due: set<nat>, noLater: (R, R) -> bool)
    returns (first: nat)
    requires IsOrder(noLater) && due != {} && due <= rows.Keys
    ensures first in due && forall i | i in due :: noLater(rows[first], rows[i])
    decreases |due|
  {
    first :| first in due;
    var rest := due - {first};
    assert forall i | i in due :: i == first || i in rest;
    if rest != {} {
      var other := EarliestExists(rows, rest, noLater);
      if noLater(rows[other], rows[first]) {
        first := other;
      }
    }
  }

  method Fetch<R(!new)>(rows: map<nat, R>, due: set<nat>, noLater: (R, R) -> bool, limit: nat)
    returns (ids: seq<nat>, batch: seq<R>)
    requires due <= rows.Keys && IsOrder(noLater)
    ensures IsFetched(rows, due, noLater, limit, ids)
    ensures |batch| == |ids| && forall k | 0 <= k < |ids| :: batch[k] == rows[ids[k]]
  {
    ids, batch := [], [];
    var left := due;
    while |ids| < limit && left != {}
      invariant |ids| <= limit && left <= due
      invariant forall i | i in due :: i in left <==> i !in ids
      invariant forall k | 0 <= k < |ids| :: ids[k] in due
      invariant |batch| == |ids| && forall k | 0 <= k < |ids| :: batch[k] == rows[ids[k]]
      invariant forall j, k | 0 <= j < k < |ids| :: ids[j] != ids[k]
      invariant forall j, k | 0 <= j < k < |ids| :: noLater(rows[ids[j]], rows[ids[k]])
      invariant forall k, i | 0 <= k < |ids| && i in left :: noLater(rows[ids[k]], rows[i])
      decreases |left|
    {
      ghost var least := EarliestExists(rows, left, noLater);
      var first :| first in left && forall i | i in left :: noLater(rows[first], rows[i]);
      left := left - {first};
      ids, batch := ids + [first], batch + [rows[first]];
    }
  }
}
