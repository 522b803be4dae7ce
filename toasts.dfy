/** toast.service.ts: the list of visible notifications and the counter that
    numbers them. */
module Toasts {
  import opened Js

  datatype Toast = Toast(id: int, message: string)

  function IdOf(t: Toast): int { t.id }

  /** The texts of the toasts, in order. */
  function Messages(ts: seq<Toast>): (r: seq<string>)
    ensures |r| == |ts|
    ensures forall i :: 0 <= i < |ts| ==> r[i] == ts[i].message
  {
    Map(ts, (t: Toast) => t.message)
  }

  ghost predicate IdsIncreasing(ts: seq<Toast>)
  {
    forall i, j :: 0 <= i < j < |ts| ==> ts[i].id < ts[j].id
  }

  /** `arr.filter((t) => t.id !== id)`. */
  function Without(ts: seq<Toast>, id: int): (r: seq<Toast>)
    ensures forall t :: t in r <==> t in ts && t.id != id
  {
    FilterMembers(ts, (t: Toast) => t.id != id);
    Filter(ts, (t: Toast) => t.id != id)
  }

  /** Dismissing keeps the remaining toasts in their order. */
  lemma DismissKeepsOrder(ts: seq<Toast>, id: int)
    ensures IsSubsequence(Without(ts, id), ts)
  {
    FilterIsSubsequence(ts, (t: Toast) => t.id != id);
  }

  /** Ids stay strictly increasing when toasts are dismissed. */
  lemma DismissKeepsIdsIncreasing(ts: seq<Toast>, id: int)
    requires IdsIncreasing(ts)
    ensures IdsIncreasing(Without(ts, id))
  {
    var keep := (t: Toast) => t.id != id;
    FilterKeepsIncreasing(ts, IdOf, keep);
    var r := Without(ts, id);
    forall i, j | 0 <= i < j < |r| ensures r[i].id < r[j].id {
      assert IdOf(r[i]) < IdOf(r[j]);
    }
  }

  /** Dismissing an id no toast carries changes nothing. */
  lemma DismissAbsentIsNoOp(ts: seq<Toast>, id: int)
    requires forall i :: 0 <= i < |ts| ==> ts[i].id != id
    ensures Without(ts, id) == ts
  {
    var keep := (t: Toast) => t.id != id;
    forall x | x in ts ensures keep(x) {
      var i :| 0 <= i < |ts| && ts[i] == x;
    }
    FilterKeepsAll(ts, keep);
  }

  /** Increasing ids are distinct ids. */
  lemma IncreasingIdsAreUnique(ts: seq<Toast>)
    requires IdsIncreasing(ts)
    ensures forall i, j :: 0 <= i < |ts| && 0 <= j < |ts| && i != j ==> ts[i].id != ts[j].id
  {
    forall i, j | 0 <= i < |ts| && 0 <= j < |ts| && i != j ensures ts[i].id != ts[j].id {
      if i < j { assert ts[i].id < ts[j].id; } else { assert ts[j].id < ts[i].id; }
    }
  }

  class ToastService {
    var toasts: seq<Toast>
    /** The `id` counter: the id the next toast gets. */
    var nextId: int

    ghost predicate Valid()
      reads this
    {
      && 1 <= nextId
      && IdsIncreasing(toasts)
      && forall i :: 0 <= i < |toasts| ==> toasts[i].id < nextId
    }

    constructor ()
      ensures toasts == [] && nextId == 1 && Valid()
    {
      toasts := [];
      nextId := 1;
    }

    /** `show(message)`: append a toast with the current counter, then advance it. */
    method Show(message: string)
      requires Valid()
      modifies this
      ensures toasts == old(toasts) + [Toast(old(nextId), message)]
      ensures nextId == old(nextId) + 1
      ensures Valid()
      ensures Messages(toasts) == Messages(old(toasts)) + [message]
    {
      var t := Toast(nextId, message);
      nextId := nextId + 1;
      toasts := toasts + [t];
      assert Messages(toasts) == Messages(old(toasts)) + [message];
    }

    /** `dismiss(id)`: drop the toasts with that id; the counter is not touched. */
    method Dismiss(id: int)
      requires Valid()
      modifies this`toasts
      ensures toasts == Without(old(toasts), id)
      ensures Valid()
    {
      DismissKeepsIdsIncreasing(toasts, id);
      toasts := Without(toasts, id);
    }
  }
}
