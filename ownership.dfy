/**
 * `Model.query.filter_by(id=..., user_id=...)` over a table of rows keyed by
 * id: which rows belong to a user, and the user's ids in ascending order.
 * `owner` reads the `user_id` column of a row.
 */
module Ownership {

  /** The row is there and belongs to the user. */
  predicate OwnedBy<E>(entries: map<nat, E>, owner: E -> nat, id: nat, userId: nat) {
    id in entries && owner(entries[id]) == userId
  }

  /** The ids below `n` of the user's rows, in ascending order. */
  function OwnedIds<E>(entries: map<nat, E>, owner: E -> nat, userId: nat, n: nat): (ids: seq<nat>)
    ensures forall i :: 0 <= i < |ids| ==> ids[i] < n && OwnedBy(entries, owner, ids[i], userId)
    ensures forall i, j :: 0 <= i < j < |ids| ==> ids[i] < ids[j]
  {
    if n == 0 then []
    else if OwnedBy(entries, owner, n - 1, userId) then OwnedIds(entries, owner, userId, n - 1) + [n - 1]
    else OwnedIds(entries, owner, userId, n - 1)
  }

  /** Every row of the user with an id below `n` is listed. */
  lemma {:induction false} OwnedIdsComplete<E>(entries: map<nat, E>, owner: E -> nat, userId: nat, n: nat, id: nat)
    requires id < n && OwnedBy(entries, owner, id, userId)
    ensures id in OwnedIds(entries, owner, userId, n)
  {
    if id < n - 1 {
      OwnedIdsComplete(entries, owner, userId, n - 1, id);
    }
  }
}
