// The toast registry of `ToastProvider`: `showToast` appends one toast
// (nothing for an empty message) and `removeToast` filters out an id. The
// id, which the source draws from `Math.random`, is an input.
module Toasts {
  import opened Text
  import opened Seqs

  datatype ToastType = Success | Error | Info | Warning

  datatype ToastItem = ToastItem(id: String, message: String, kind: ToastType, duration: int)

  /** What a component asks `showToast` for. */
  datatype ToastRequest = ToastRequest(message: String, kind: ToastType)

  const DefaultDuration := 5000

  function ToastId(t: ToastItem): String
  {
    t.id
  }

  /** No two toasts share an id. */
  ghost predicate IdsUnique(ts: seq<ToastItem>)
  {
    forall i, j :: 0 <= i < j < |ts| ==> ts[i].id != ts[j].id
  }

  class ToastProvider {
    var toasts: seq<ToastItem>

    constructor()
      ensures toasts == []
    {
      toasts := [];
    }

    /** `showToast(message, type = 'info', duration = 5000)`. */
    method ShowToast(id: String, message: String, kind: ToastType := Info, duration: int := DefaultDuration)
      modifies this
      ensures message == "" ==> toasts == old(toasts)
      ensures message != "" ==> toasts == old(toasts) + [ToastItem(id, message, kind, duration)]
    {
      if message == "" {
        return;
      }
      toasts := toasts + [ToastItem(id, message, kind, duration)];
    }

    /** `removeToast(id)`: every toast with that id goes, the others stay in
        order. */
    method RemoveToast(id: String)
      modifies this
      ensures toasts == RemoveKey(old(toasts), ToastId, id)
    {
      toasts := RemoveKey(toasts, ToastId, id);
    }

    /** The close callback of the toast rendered at position `i`: it removes
        that toast's own id and no other. */
    method CloseRendered(i: nat)
      requires i < |toasts|
      modifies this
      ensures toasts == RemoveKey(old(toasts), ToastId, old(toasts)[i].id)
      ensures old(toasts)[i] !in toasts
      ensures forall t :: t in old(toasts) && t.id != old(toasts)[i].id ==> t in toasts
    {
      RemoveToast(toasts[i].id);
    }
  }

  /** A toast shown with a fresh id and then removed by that id leaves the
      list as it was. */
  lemma {:induction false} ShowThenRemove(ts: seq<ToastItem>, t: ToastItem)
    requires forall j :: 0 <= j < |ts| ==> ts[j].id != t.id
    ensures RemoveKey(ts + [t], ToastId, t.id) == ts
  {
    RemoveKeyAppend(ts, [t], ToastId, t.id);
    RemoveAbsentKey(ts, ToastId, t.id);
    assert RemoveKey([t], ToastId, t.id) == RemoveKey([t][1..], ToastId, t.id);
  }

  /** With unique ids, closing one toast removes exactly that one entry. */
  lemma {:induction false} CloseRemovesOne(ts: seq<ToastItem>, i: nat)
    requires IdsUnique(ts) && i < |ts|
    ensures RemoveKey(ts, ToastId, ts[i].id) == ts[..i] + ts[i + 1..]
  {
    var k := ts[i].id;
    assert ts == ts[..i] + ([ts[i]] + ts[i + 1..]);
    RemoveKeyAppend(ts[..i], [ts[i]] + ts[i + 1..], ToastId, k);
    RemoveKeyAppend([ts[i]], ts[i + 1..], ToastId, k);
    RemoveAbsentKey(ts[..i], ToastId, k);
    RemoveAbsentKey(ts[i + 1..], ToastId, k);
    assert RemoveKey([ts[i]], ToastId, k) == RemoveKey([ts[i]][1..], ToastId, k);
  }
}
