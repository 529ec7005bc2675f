/** `src/shared/toast/ToastProvider.tsx`: the list of toasts on screen. The id
    of a new toast comes from `crypto.randomUUID` (or `Math.random`), so it is
    a parameter here; the four-second timer is not modelled, only the removal
    it performs. */
module Toasts {
  import opened Seqs

  datatype ToastType = Success | Error | Info

  datatype Toast = Toast(id: string, kind: ToastType, message: string)

  /** `prev.filter(t => t.id !== id)`. */
  function Without(toasts: seq<Toast>, id: string): seq<Toast>
  {
    Filter(toasts, (t: Toast) => t.id != id)
  }

  /** Removing an id drops every toast with that id and keeps the others in
      order; an unknown id changes nothing; removing twice is removing once. */
  lemma WithoutSpec(toasts: seq<Toast>, id: string)
    ensures forall t :: t in Without(toasts, id) <==> t in toasts && t.id != id
    ensures IsSubsequence(Without(toasts, id), toasts)
    ensures (forall i :: 0 <= i < |toasts| ==> toasts[i].id != id) ==> Without(toasts, id) == toasts
    ensures Without(Without(toasts, id), id) == Without(toasts, id)
  {
    var p := (t: Toast) => t.id != id;
    forall t {
      FilterMembership(toasts, p, t);
    }
    FilterIsSubsequence(toasts, p);
    if forall i :: 0 <= i < |toasts| ==> toasts[i].id != id {
      FilterAll(toasts, p);
    }
    FilterIdempotent(toasts, p);
  }

  /** A toast whose id is new to the list is shown and then removed again:
      the list returns to what it was. */
  lemma ShowThenDismiss(toasts: seq<Toast>, t: Toast)
    requires forall i :: 0 <= i < |toasts| ==> toasts[i].id != t.id
    ensures Without(toasts + [t], t.id) == toasts
  {
    var p := (x: Toast) => x.id != t.id;
    FilterAppend(toasts, [t], p);
    FilterAll(toasts, p);
    assert [t][1..] == [];
  }

  /** The provider's state. */
  class ToastProvider {
    var toasts: seq<Toast>

    constructor()
      ensures toasts == []
    {
      toasts := [];
    }

    /** `showToast(message, type = 'info')`, with the id `createId` gave. */
    method ShowToast(message: string, kind: Option<ToastType>, id: string)
      modifies this
      ensures toasts == old(toasts) + [Toast(id, if kind.Some? then kind.value else Info, message)]
    {
      var k := if kind.Some? then kind.value else Info;
      toasts := toasts + [Toast(id, k, message)];
    }

    /** `dismissToast(id)`. */
    method DismissToast(id: string)
      modifies this
      ensures toasts == Without(old(toasts), id)
    {
      toasts := Filter(toasts, (t: Toast) => t.id != id);
    }

    /** The timer callback `showToast` schedules: the same removal as
        `dismissToast`. */
    method AutoDismiss(id: string)
      modifies this
      ensures toasts == Without(old(toasts), id)
    {
      DismissToast(id);
    }
  }
}
