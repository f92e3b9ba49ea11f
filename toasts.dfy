/** The toast notification queue (context/ToastContext.tsx): a list of
    transient messages, each removed by its own timer or by dismissal. */
module Toasts {
  import opened Base

  datatype ToastType = Success | Error | Info

  /** `id` comes from the clock (`Date.now()`), so it is supplied by the
      caller; two toasts posted in the same millisecond share it. */
  datatype Toast = Toast(id: int, message: string, kind: ToastType)

  /** The severity used when `showToast` is called without one. */
  const DefaultType: ToastType := Info

  /** `toasts.filter(t => t.id !== id)`. */
  function Without(ts: seq<Toast>, id: int): (r: seq<Toast>)
    ensures |r| <= |ts|
    ensures forall t :: t in r ==> t in ts && t.id != id
    ensures forall t :: t in ts && t.id != id ==> t in r
  {
    if ts == [] then [] else (if ts[0].id == id then [] else [ts[0]]) + Without(ts[1..], id)
  }

  /** Removal keeps the survivors in their original order: it distributes
      over concatenation. */
  lemma {:induction false} WithoutAppend(a: seq<Toast>, b: seq<Toast>, id: int)
    ensures Without(a + b, id) == Without(a, id) + Without(b, id)
  {
    if a == [] {
      assert a + b == b;
    } else {
      assert (a + b)[0] == a[0];
      assert (a + b)[1..] == a[1..] + b;
      WithoutAppend(a[1..], b, id);
    }
  }

  /** Removing an id that no toast carries leaves the list as it is. */
  lemma {:induction false} WithoutAbsent(ts: seq<Toast>, id: int)
    requires forall t :: t in ts ==> t.id != id
    ensures Without(ts, id) == ts
  {
    if ts != [] {
      assert ts[0] in ts;
      assert forall t :: t in ts[1..] ==> t in ts;
      WithoutAbsent(ts[1..], id);
      assert ts == [ts[0]] + ts[1..];
    }
  }

  /** Removal is idempotent: a timer firing after a dismissal (or a second
      dismissal) changes nothing. */
  lemma WithoutIdempotent(ts: seq<Toast>, id: int)
    ensures Without(Without(ts, id), id) == Without(ts, id)
  {
    WithoutAbsent(Without(ts, id), id);
  }

  /** Removals of two ids commute, so timers and dismissals of different
      toasts do not interfere. */
  lemma {:induction false} WithoutCommutes(ts: seq<Toast>, a: int, b: int)
    ensures Without(Without(ts, a), b) == Without(Without(ts, b), a)
  {
    if ts != [] {
      var head, tail := [ts[0]], ts[1..];
      assert ts == head + tail;
      WithoutAppend(head, tail, a);
      WithoutAppend(head, tail, b);
      WithoutAppend(Without(head, a), Without(tail, a), b);
      WithoutAppend(Without(head, b), Without(tail, b), a);
      WithoutCommutes(tail, a, b);
    }
  }

  /** Posting a toast with an id no earlier toast has, then removing that
      id, gives back the earlier list. */
  lemma PostThenRemove(ts: seq<Toast>, t: Toast)
    requires forall u :: u in ts ==> u.id != t.id
    ensures Without(ts + [t], t.id) == ts
  {
    WithoutAppend(ts, [t], t.id);
    WithoutAbsent(ts, t.id);
  }

  /** Two toasts posted in the same millisecond share an id, so the timer
      (or the close button) of the first also removes the second. */
  lemma SharedIdRemovedTogether(ts: seq<Toast>, first: Toast, second: Toast)
    requires first.id == second.id
    ensures Without(ts + [first, second], first.id) == Without(ts, first.id)
  {
    WithoutAppend(ts, [first, second], first.id);
    assert [first, second][1..] == [second];
  }

  /** The list left after the pending timers fire in order. */
  function ExpireAll(ts: seq<Toast>, timers: seq<int>): seq<Toast>
    decreases |timers|
  {
    if timers == [] then ts else ExpireAll(Without(ts, timers[0]), timers[1..])
  }

  /** When every shown toast has a pending timer, the toasts are all gone
      once those timers have fired. */
  lemma {:induction false} ExpireAllEmpties(ts: seq<Toast>, timers: seq<int>)
    requires forall t :: t in ts ==> t.id in timers
    ensures forall t :: t !in ExpireAll(ts, timers)
    decreases |timers|
  {
    if timers != [] {
      var rest := Without(ts, timers[0]);
      forall t | t in rest
        ensures t.id in timers[1..]
      {
        assert t in ts && t.id != timers[0];
        assert t.id in timers;
      }
      ExpireAllEmpties(rest, timers[1..]);
    }
  }

  /** The heading of a toast: "ERROR" for an error, "SYSTEM_MSG" otherwise. */
  function Label(kind: ToastType): (r: string)
    ensures r == "ERROR" <==> kind == Error
    ensures r != "ERROR" ==> r == "SYSTEM_MSG"
  {
    if kind == Error then "ERROR" else "SYSTEM_MSG"
  }

  /** The provider's `toasts` state with the auto-removal timers it has
      scheduled. Every timer waits the same 3000 ms, so timers fire in the
      order they were scheduled; `timers` lists the ids they will remove. */
  class ToastQueue {
    var toasts: seq<Toast>
    var timers: seq<int>

    /** Every toast on screen has a pending timer that will remove it. */
    ghost predicate Valid()
      reads this
    {
      forall t :: t in toasts ==> t.id in timers
    }

    constructor ()
      ensures Valid()
      ensures toasts == [] && timers == []
    {
      toasts := [];
      timers := [];
    }

    /** `showToast(message, type)` at clock time `now`: appends one toast
        with id `now` and schedules a timer for exactly that id. */
    method ShowToast(message: string, kind: Option<ToastType>, now: int)
      requires Valid()
      modifies this
      ensures Valid()
      ensures toasts == old(toasts) + [Toast(now, message, if kind.Some? then kind.value else DefaultType)]
      ensures timers == old(timers) + [now]
    {
      var t := if kind.Some? then kind.value else DefaultType;
      toasts := toasts + [Toast(now, message, t)];
      timers := timers + [now];
    }

    /** The oldest pending timer fires and removes every toast with its id;
        with no timer pending nothing happens. */
    method ExpireNext()
      requires Valid()
      modifies this
      ensures Valid()
      ensures old(timers) == [] ==> toasts == old(toasts) && timers == []
      ensures old(timers) != [] ==> timers == old(timers)[1..] && toasts == Without(old(toasts), old(timers)[0])
    {
      if timers != [] {
        var id := timers[0];
        toasts := Without(toasts, id);
        timers := timers[1..];
        forall t | t in toasts
          ensures t.id in timers
        {
          assert t.id in old(timers) && t.id != id;
        }
      }
    }

    /** The close button of toast `id`: removes every toast with that id;
        its timer stays scheduled and later finds nothing to remove. */
    method Dismiss(id: int)
      requires Valid()
      modifies this
      ensures Valid()
      ensures toasts == Without(old(toasts), id)
      ensures timers == old(timers)
    {
      toasts := Without(toasts, id);
    }

    /** Once the pending timers have all fired, no toast remains. */
    lemma AllExpire()
      requires Valid()
      ensures forall t :: t !in ExpireAll(toasts, timers)
    {
      ExpireAllEmpties(toasts, timers);
    }
  }
}
