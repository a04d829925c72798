/**
 * The sleep wind-down checklist (components/generative/SleepWindDown): a flag record keyed by
 * routine id, toggled per item, and the completion count.
 */
module Sleep {

  /** The routine's item ids, in display order. */
  const RoutineIds: seq<string> := ["screens", "tea", "calm", "journal"]

  /** `!!completed[id]`: an id never toggled reads as not done. */
  predicate Done(c: map<string, bool>, id: string) {
    id in c && c[id]
  }

  /** The record after `toggle(id)`: `{...prev, [id]: !prev[id]}`. */
  function Flip(c: map<string, bool>, id: string): (r: map<string, bool>)
    ensures r.Keys == c.Keys + {id}
    ensures Done(r, id) == !Done(c, id)
    ensures forall x :: x != id ==> (x in r <==> x in c) && (x in c ==> r[x] == c[x])
  {
    c[id := !Done(c, id)]
  }

  /** Toggling the same id twice restores whether every id counts as done. */
  lemma FlipTwice(c: map<string, bool>, id: string, x: string)
    ensures Done(Flip(Flip(c, id), id), x) == Done(c, x)
  {
  }

  /** The number of ids in `ids` whose flag is set. */
  function CountDone(c: map<string, bool>, ids: seq<string>): (n: nat)
    ensures n <= |ids|
  {
    if ids == [] then 0 else (if Done(c, ids[0]) then 1 else 0) + CountDone(c, ids[1..])
  }

  predicate Distinct(ids: seq<string>) {
    forall i, j :: 0 <= i < j < |ids| ==> ids[i] != ids[j]
  }

  /** Flipping a listed id moves the count by exactly one; flipping another id leaves it alone. */
  lemma {:induction false} FlipCount(c: map<string, bool>, ids: seq<string>, id: string)
    requires Distinct(ids)
    ensures CountDone(Flip(c, id), ids) ==
      CountDone(c, ids) + (if id !in ids then 0 else if Done(c, id) then -1 else 1)
  {
    if ids != [] {
      assert Distinct(ids[1..]);
      if ids[0] == id {
        assert id !in ids[1..];
      } else {
        assert id in ids[1..] <==> id in ids;
      }
      FlipCount(c, ids[1..], id);
    }
  }

  /** The count is full exactly when every listed id is done. */
  lemma {:induction false} CountFull(c: map<string, bool>, ids: seq<string>)
    ensures CountDone(c, ids) == |ids| <==> forall k :: 0 <= k < |ids| ==> Done(c, ids[k])
  {
    if ids != [] {
      CountFull(c, ids[1..]);
      assert forall k :: 1 <= k < |ids| ==> ids[k] == ids[1..][k - 1];
    }
  }

  class SleepWindDown {
    var completed: map<string, bool>

    /** Only the routine's own ids ever appear in the record. */
    predicate Valid()
      reads this
    {
      forall id :: id in completed ==> id in RoutineIds
    }

    /** Nothing is done at first. */
    constructor()
      ensures completed == map[] && Valid()
    {
      completed := map[];
    }

    /** `toggle(id)`, called for the item whose button was clicked. */
    method Toggle(id: string)
      requires id in RoutineIds
      modifies this
      ensures completed == Flip(old(completed), id)
      ensures old(Valid()) ==> Valid()
    {
      completed := completed[id := !Done(completed, id)];
    }

    /**
     * `completedCount`: the number of set flags. Since only routine ids are ever keys, these are
     * the set flags among the four routine items.
     */
    function CompletedCount(): (n: nat)
      reads this
      ensures n <= |RoutineIds|
    {
      CountDone(completed, RoutineIds)
    }

    /** `allComplete`: every one of the four items is done. */
    predicate AllComplete()
      reads this
      ensures AllComplete() <==> forall k :: 0 <= k < |RoutineIds| ==> Done(completed, RoutineIds[k])
    {
      CountFull(completed, RoutineIds);
      CompletedCount() == |RoutineIds|
    }
  }

  /** The routine's ids are distinct, so each toggle changes the count by one. */
  lemma RoutineIdsDistinct()
    ensures Distinct(RoutineIds) && |RoutineIds| == 4
  {
  }
}
