/** The toast list of `hooks/use-toast.ts`: one module-level list of toasts,
    appended to by `showToast` (and the hook's `toast`), filtered by
    `dismiss`, and pushed to the mounted hook's state after each change.
    Every new toast schedules its own removal; the five-second delay is not
    modelled, a pending removal is fired explicitly instead. */
module Toasts {
  import opened Base

  datatype ToastVariant = ToastSuccess | ToastError | ToastInfo

  datatype Toast = Toast(id: string, message: string, variant: ToastVariant)

  /** The variant used when the caller gives none. */
  const DefaultVariant: ToastVariant := ToastInfo

  /** The filter of `dismiss(id)`: keep the toasts with another id. */
  function OtherId(id: string): Toast -> bool
  {
    (t: Toast) => t.id != id
  }

  /** The list after `dismiss(id)`. */
  function Dismissed(toasts: seq<Toast>, id: string): (r: seq<Toast>)
    ensures forall i :: 0 <= i < |r| ==> r[i].id != id && r[i] in toasts
    ensures forall i :: 0 <= i < |toasts| && toasts[i].id != id ==> toasts[i] in r
  {
    FilterMembers(toasts, OtherId(id));
    Filter(toasts, OtherId(id))
  }

  /** Dismissing an id that is not shown changes nothing. */
  lemma DismissAbsent(toasts: seq<Toast>, id: string)
    requires forall i :: 0 <= i < |toasts| ==> toasts[i].id != id
    ensures Dismissed(toasts, id) == toasts
  {
    FilterKeepsAll(toasts, OtherId(id));
  }

  /** Dismissing keeps the other toasts in their order: taking one toast out
      of the middle of a list leaves the parts before and after it joined. */
  lemma DismissKeepsOrder(before: seq<Toast>, t: Toast, after: seq<Toast>)
    requires forall i :: 0 <= i < |before| ==> before[i].id != t.id
    requires forall i :: 0 <= i < |after| ==> after[i].id != t.id
    ensures Dismissed(before + [t] + after, t.id) == before + after
  {
    var keep := OtherId(t.id);
    ShowThenDismiss(before, t);
    assert Filter(before + [t], keep) == before;
    FilterConcat(before + [t], after, keep);
    DismissAbsent(after, t.id);
  }

  /** Showing a toast with a fresh id and then dismissing that id gives back
      the list from before. */
  lemma ShowThenDismiss(toasts: seq<Toast>, t: Toast)
    requires forall i :: 0 <= i < |toasts| ==> toasts[i].id != t.id
    ensures Dismissed(toasts + [t], t.id) == toasts
  {
    FilterSnoc(toasts, t, OtherId(t.id));
    DismissAbsent(toasts, t.id);
  }

  /** Dismissing is idempotent. */
  lemma DismissTwice(toasts: seq<Toast>, id: string)
    ensures Dismissed(Dismissed(toasts, id), id) == Dismissed(toasts, id)
  {
    FilterIdempotent(toasts, OtherId(id));
  }

  /** The module state: `globalToasts`, whether a hook has registered its
      setter (and the hook's state it sets), and the removals still pending,
      one id per scheduled timer. */
  class ToastStore {
    var toasts: seq<Toast>
    var mounted: bool
    var view: seq<Toast>
    var timers: seq<string>

    /** Once a hook is mounted, its state follows every change. */
    predicate Valid()
      reads this
    {
      mounted ==> view == toasts
    }

    constructor ()
      ensures Valid()
      ensures toasts == [] && !mounted && view == [] && timers == []
    {
      toasts, view, timers := [], [], [];
      mounted := false;
    }

    /** `useToast()`: the hook starts from the current list and registers
        its setter. */
    method Mount()
      modifies this
      ensures Valid()
      ensures mounted && view == toasts
      ensures toasts == old(toasts) && timers == old(timers)
    {
      mounted := true;
      view := toasts;
    }

    /** `showToast(message, variant)`, and the hook's `toast`, which does the
        same: one toast with a new random `id` is appended at the end and
        its removal is scheduled. */
    method Show(message: string, variant: ToastVariant, id: string)
      requires Valid()
      modifies this
      ensures Valid()
      ensures toasts == old(toasts) + [Toast(id, message, variant)]
      ensures timers == old(timers) + [id]
      ensures mounted == old(mounted) && (!mounted ==> view == old(view))
    {
      toasts := toasts + [Toast(id, message, variant)];
      if mounted {
        view := toasts;
      }
      timers := timers + [id];
    }

    /** `showToast(message)` without a variant: an info toast. */
    method ShowDefault(message: string, id: string)
      requires Valid()
      modifies this
      ensures Valid()
      ensures toasts == old(toasts) + [Toast(id, message, ToastInfo)]
      ensures timers == old(timers) + [id]
      ensures mounted == old(mounted) && (!mounted ==> view == old(view))
    {
      Show(message, DefaultVariant, id);
    }

    /** `dismiss(id)`: every toast with that id goes, the rest stay in order. */
    method Dismiss(id: string)
      requires Valid()
      modifies this
      ensures Valid()
      ensures toasts == Dismissed(old(toasts), id)
      ensures timers == old(timers)
      ensures mounted == old(mounted) && (!mounted ==> view == old(view))
    {
      toasts := Dismissed(toasts, id);
      if mounted {
        view := toasts;
      }
    }

    /** The `i`-th pending timer fires: it dismisses the id it was scheduled
        for, and no other, and is no longer pending. */
    method TimerFires(i: int)
      requires Valid()
      requires 0 <= i < |timers|
      modifies this
      ensures Valid()
      ensures toasts == Dismissed(old(toasts), old(timers)[i])
      ensures timers == old(timers)[..i] + old(timers)[i + 1..]
      ensures mounted == old(mounted) && (!mounted ==> view == old(view))
    {
      var id := timers[i];
      Dismiss(id);
      timers := timers[..i] + timers[i + 1..];
    }
  }
}
