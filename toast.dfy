/**
 * The notification list (src/contexts/ToastContext.tsx): toasts shown in order, and one
 * pending auto-dismiss timer per toast, kept in a dictionary by toast id.
 */
module Toast {
  import Seqs

  datatype ToastType = Success | Error | Warning | Info

  datatype Toast = Toast(id: string, message: string, kind: ToastType)

  /** A pending timer, as the platform identifies it: browsers hand out positive handles, so a stored handle is always truthy. */
  type Timer = x: int | x > 0 witness 1

  /** The list after `hideToast`: every toast with another id, in order. */
  function WithoutToast(toasts: seq<Toast>, id: string): (r: seq<Toast>)
  {
    Seqs.Filter(toasts, (t: Toast) => t.id != id)
  }

  /**
   * Hiding removes every toast with that id and keeps the rest in order; hiding an id that
   * is not shown changes nothing, so hiding twice is hiding once.
   */
  lemma WithoutToastSpec(toasts: seq<Toast>, id: string)
    ensures Seqs.IsSubsequence(WithoutToast(toasts, id), toasts)
    ensures forall t :: t in WithoutToast(toasts, id) <==> t in toasts && t.id != id
    ensures (forall i :: 0 <= i < |toasts| ==> toasts[i].id != id) ==> WithoutToast(toasts, id) == toasts
    ensures WithoutToast(WithoutToast(toasts, id), id) == WithoutToast(toasts, id)
  {
    var keep := (t: Toast) => t.id != id;
    Seqs.FilterIsSubsequence(toasts, keep);
    forall t ensures t in WithoutToast(toasts, id) <==> t in toasts && t.id != id {
      Seqs.FilterMembership(toasts, keep, t);
    }
    if forall i :: 0 <= i < |toasts| ==> toasts[i].id != id {
      Seqs.FilterAll(toasts, keep);
    }
    var once := WithoutToast(toasts, id);
    forall i | 0 <= i < |once| ensures keep(once[i]) {
      assert once[i] in once;
    }
    Seqs.FilterAll(once, keep);
  }

  /** The ids of the toasts on screen. */
  function Ids(toasts: seq<Toast>): (ids: set<string>)
    ensures forall t :: t in toasts ==> t.id in ids
  {
    set t | t in toasts :: t.id
  }

  /** Showing adds the new toast's id; hiding removes exactly the hidden id. */
  lemma IdsSpec(toasts: seq<Toast>, t: Toast, id: string)
    ensures Ids(toasts + [t]) == Ids(toasts) + {t.id}
    ensures Ids(WithoutToast(toasts, id)) == Ids(toasts) - {id}
  {
    assert forall u :: u in toasts + [t] <==> u in toasts || u == t;
    WithoutToastSpec(toasts, id);
    forall k | k in Ids(toasts) - {id} ensures k in Ids(WithoutToast(toasts, id)) {
      var u :| u in toasts && u.id == k;
      assert u in WithoutToast(toasts, id);
    }
  }

  /** The provider's state: the toasts on screen and the timers that will dismiss them. */
  class ToastProvider {
    var toasts: seq<Toast>
    var timeouts: map<string, Timer>

    /** Every toast on screen has a pending timer, and every pending timer belongs to a toast on screen. */
    ghost predicate Valid()
      reads this
    {
      timeouts.Keys == Ids(toasts)
    }

    constructor ()
      ensures Valid() && toasts == [] && timeouts == map[]
    {
      toasts := [];
      timeouts := map[];
    }

    /**
     * `showToast`: one toast at the end under the fresh id, the earlier ones unchanged, and
     * the timer that will hide it recorded under that id.
     */
    method ShowToast(message: string, kind: ToastType, id: string, timer: Timer)
      requires Valid()
      modifies this
      ensures Valid()
      ensures toasts == old(toasts) + [Toast(id, message, kind)]
      ensures timeouts == old(timeouts)[id := timer]
    {
      IdsSpec(toasts, Toast(id, message, kind), id);
      toasts := toasts + [Toast(id, message, kind)];
      timeouts := timeouts[id := timer];
    }

    /**
     * `hideToast`: every toast with that id leaves the list, the rest keep their order, and
     * that id's timer entry goes if present, other entries staying.
     */
    method HideToast(id: string)
      requires Valid()
      modifies this
      ensures Valid()
      ensures toasts == WithoutToast(old(toasts), id)
      ensures timeouts == old(timeouts) - {id}
    {
      IdsSpec(toasts, Toast(id, "", Info), id);
      toasts := WithoutToast(toasts, id);
      if id in timeouts {
        timeouts := timeouts - {id};
      }
    }
  }
}
