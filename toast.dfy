/**
 * The web client's toast store (apps/web/src/stores/toast.ts): a list of
 * notifications, each with an id taken from a counter that starts at 1 and
 * grows by one per `push`, and `remove(id)`, which drops every toast with
 * that id.
 */
module Toasts {
  import opened Wrappers
  import opened Seqs

  datatype ToastType = Success | Failure | Info

  /** The spelling of each `ToastType` in the client. */
  function ToastTypeName(t: ToastType): string {
    match t
    case Success => "success"
    case Failure => "error"
    case Info => "info"
  }

  datatype Toast = Toast(id: nat, message: string, kind: ToastType)

  /** Ids strictly increase along the list (so they are pairwise distinct). */
  predicate IdsIncreasing(ts: seq<Toast>) {
    forall i, j :: 0 <= i < j < |ts| ==> ts[i].id < ts[j].id
  }

  /** `toasts.filter((toast) => toast.id !== id)`. */
  function WithoutId(ts: seq<Toast>, id: nat): seq<Toast> {
    Filter(ts, (t: Toast) => t.id != id)
  }

  /** Removal keeps exactly the toasts with other ids. */
  lemma WithoutIdMembers(ts: seq<Toast>, id: nat)
    ensures forall t :: t in WithoutId(ts, id) <==> t in ts && t.id != id
  {
    FilterMembers(ts, (t: Toast) => t.id != id);
  }

  /** Removing an id nobody carries leaves the list as it was. */
  lemma WithoutAbsentId(ts: seq<Toast>, id: nat)
    requires forall i :: 0 <= i < |ts| ==> ts[i].id != id
    ensures WithoutId(ts, id) == ts
  {
    FilterOfAll(ts, (t: Toast) => t.id != id);
  }

  /** Removing twice is removing once. */
  lemma WithoutIdIdempotent(ts: seq<Toast>, id: nat)
    ensures WithoutId(WithoutId(ts, id), id) == WithoutId(ts, id)
  {
    var r := WithoutId(ts, id);
    WithoutIdMembers(ts, id);
    forall i | 0 <= i < |r| ensures r[i].id != id {
      assert r[i] in r;
    }
    WithoutAbsentId(r, id);
  }

  /**
   * With distinct ids, removing the id of toast `i` takes out that toast
   * alone and keeps the others in their order.
   */
  lemma WithoutIdRemovesOne(ts: seq<Toast>, i: nat)
    requires IdsIncreasing(ts) && i < |ts|
    ensures WithoutId(ts, ts[i].id) == ts[..i] + ts[i + 1..]
  {
    FilterRemovesOne(ts, (t: Toast) => t.id != ts[i].id, i);
  }

  /** Removal keeps the ids increasing. */
  lemma {:induction false} WithoutIdIncreasing(ts: seq<Toast>, id: nat)
    requires IdsIncreasing(ts)
    ensures IdsIncreasing(WithoutId(ts, id))
  {
    if ts != [] {
      var tail := ts[1..];
      assert IdsIncreasing(tail) by {
        forall i, j | 0 <= i < j < |tail| ensures tail[i].id < tail[j].id {
          assert tail[i] == ts[i + 1] && tail[j] == ts[j + 1];
        }
      }
      WithoutIdIncreasing(tail, id);
      if ts[0].id != id {
        var rt := WithoutId(tail, id);
        forall k | 0 <= k < |rt| ensures ts[0].id < rt[k].id {
          WithoutIdMembers(tail, id);
          assert rt[k] in tail;
          var m :| 0 <= m < |tail| && tail[m] == rt[k];
          assert ts[m + 1] == rt[k];
        }
        var r := [ts[0]] + rt;
        assert WithoutId(ts, id) == r;
        forall i, j | 0 <= i < j < |r| ensures r[i].id < r[j].id {
          if i == 0 {
            assert r[j] == rt[j - 1];
          } else {
            assert r[i] == rt[i - 1] && r[j] == rt[j - 1];
          }
        }
      }
    }
  }

  class ToastStore {
    var toasts: seq<Toast>
    /** The module-level `toastId` counter: the id the next `push` takes. */
    var toastId: nat

    ghost predicate Valid()
      reads this
    {
      && toastId >= 1
      && IdsIncreasing(toasts)
      && forall i :: 0 <= i < |toasts| ==> toasts[i].id < toastId
    }

    constructor ()
      ensures toasts == [] && toastId == 1
      ensures Valid()
    {
      toasts := [];
      toastId := 1;
    }

    /** `push(message, type = 'info')`; the auto-dismiss timer is not modelled. */
    method Push(message: string, kind: Option<ToastType>) returns (id: nat)
      requires Valid()
      modifies this
      ensures Valid()
      ensures id == old(toastId) && toastId == old(toastId) + 1
      ensures toasts == old(toasts) + [Toast(id, message, kind.GetOr(Info))]
      ensures forall i :: 0 <= i < |old(toasts)| ==> toasts[i].id < id
    {
      id := toastId;
      toastId := toastId + 1;
      toasts := toasts + [Toast(id, message, kind.GetOr(Info))];
    }

    /** `remove(id)`. */
    method Remove(id: nat)
      requires Valid()
      modifies this
      ensures Valid()
      ensures toastId == old(toastId)
      ensures toasts == WithoutId(old(toasts), id)
      ensures forall i :: 0 <= i < |toasts| ==> toasts[i].id != id
    {
      WithoutIdIncreasing(toasts, id);
      WithoutIdMembers(toasts, id);
      toasts := WithoutId(toasts, id);
      forall i | 0 <= i < |toasts| ensures toasts[i].id != id && toasts[i].id < toastId {
        assert toasts[i] in old(toasts);
      }
    }
  }
}
