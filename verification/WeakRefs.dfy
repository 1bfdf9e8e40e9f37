/**
 Weak references to GObjects with a callback (PyGObjectWeakRef in gobject/pygobject.c).  While the GObject
 lives, a weak reference that has a callback holds a reference to itself, the floating reference.
 */
module WeakRefs {
  import opened Sequences
  import opened Wrappers

  /** `registered` is GLib's side: the GObject will notify this weak reference when it is finalised.
      `outside` counts references held elsewhere, `calls` how often the callback was started, `dropped`
      how often the floating reference was given up; `busy` is set while the callback runs. */
  datatype Weak = Weak(
    live: bool, count: int, obj: bool, callback: bool, floating: bool, registered: bool, busy: bool,
    outside: nat, calls: nat, dropped: nat, unreffed: bool)

  datatype Event = Hold | Drop | CallUnref | Finalise | CallbackReturns

  // ---------- the functions of pygobject.c; None is a use of freed memory ----------

  function New(callback: bool): Weak {
    Weak(true, if callback then 2 else 1, true, callback, callback, true, false, 1, 0, 0, false)
  }

  /** pygobject_weak_ref_dealloc, with pygobject_weak_ref_clear. */
  function Dealloc(w: Weak): Weak {
    w.(callback := false, obj := false, registered := w.registered && !w.obj, live := false)
  }

  function Decref(w: Weak): Option<Weak> {
    if !w.live then None
    else if w.count == 1 then Some(Dealloc(w.(count := 0)))
    else Some(w.(count := w.count - 1))
  }

  function DropFloating(w: Weak): Option<Weak> {
    if !w.live then None
    else if w.floating then Decref(w.(floating := false, dropped := w.dropped + 1)) else Some(w)
  }

  /** pygobject_weak_ref_notify up to the call; without a callback that is all. */
  function Notify(w: Weak): Option<Weak> {
    if !w.live then None else
    var cleared := w.(obj := false);
    Some(if w.callback then cleared.(calls := w.calls + 1, busy := true) else cleared)
  }

  /** The rest of it, when the callback has returned. */
  function AfterCallback(w: Weak): Option<Weak> {
    if !w.live then None else DropFloating(w.(busy := false, callback := false))
  }

  /** pygobject_weak_ref_unref; the flag is false for its ValueError. */
  function Unref(w: Weak): Option<(Weak, bool)> {
    if !w.live then None
    else if !w.obj then Some((w, false))
    else
      match DropFloating(w.(obj := false, registered := false, unreffed := true))
      case None => None
      case Some(next) => Some((next, true))
  }

  // ---------- what may happen next ----------

  predicate Possible(w: Weak, e: Event) {
    match e
    case Hold => w.outside > 0
    case Drop => w.outside > 0
    case CallUnref => w.outside > 0
    case Finalise => w.registered
    case CallbackReturns => w.busy
  }

  function Next(w: Weak, e: Event): Option<Weak>
    requires Possible(w, e)
  {
    match e
    case Hold => if w.live then Some(w.(count := w.count + 1, outside := w.outside + 1)) else None
    case Drop => Decref(w.(outside := w.outside - 1))
    case CallUnref => (match Unref(w) case None => None case Some((next, _)) => Some(next))
    case Finalise => Notify(w.(registered := false))
    case CallbackReturns => AfterCallback(w)
  }

  /** Any order of possible events; None when one of them uses freed memory. */
  function After(w: Weak, es: seq<Event>): Option<Weak> {
    if es == [] then Some(w) else
    match After(w, es[..|es| - 1])
    case None => None
    case Some(before) => if Possible(before, es[|es| - 1]) then Next(before, es[|es| - 1]) else Some(before)
  }

  /** `given` says whether the weak reference was made with a callback. */
  predicate Sound(w: Weak, given: bool) {
    && (w.live ==> w.count == w.outside + (if w.floating then 1 else 0) && w.count > 0)
    && (!w.live ==> w.outside == 0 && !w.floating)
    && (w.registered <==> w.live && w.obj) && (w.callback ==> given)
    && (w.obj && given ==> w.floating && w.callback)
    && (w.floating ==> given && w.callback && (w.obj || w.busy))
    && (w.busy ==> w.floating && w.calls == 1)
    && w.calls <= 1 && (w.calls == 1 ==> given && !w.obj && !w.unreffed)
    && (w.unreffed ==> !w.obj && w.calls == 0)
    && w.dropped + (if w.floating then 1 else 0) == (if given then 1 else 0)
  }

  lemma NextKeepsSound(w: Weak, e: Event, given: bool)
    requires Sound(w, given) && Possible(w, e)
    ensures Next(w, e).Some? && Sound(Next(w, e).value, given)
  {
    match e {
      case Hold =>
      case Drop =>
      case CallUnref =>
      case Finalise =>
      case CallbackReturns =>
    }
  }

  lemma {:induction false} RunsAreSound(given: bool, es: seq<Event>)
    ensures After(New(given), es).Some? && Sound(After(New(given), es).value, given)
  {
    if es != [] {
      var before := es[..|es| - 1];
      RunsAreSound(given, before);
      var w := After(New(given), before).value;
      if Possible(w, es[|es| - 1]) {
        NextKeepsSound(w, es[|es| - 1], given);
      }
    }
  }

  /** Over every run: nothing freed is used; the callback runs at most once and never after an unref; the
      floating reference is given up exactly once, when the GObject is gone and the callback is done or
      on unref; and a weak reference that can still be notified, or whose callback runs, is alive. */
  lemma CallbackRunsOnce(given: bool, es: seq<Event>)
    ensures After(New(given), es).Some?
    ensures var w := After(New(given), es).value;
            && w.calls <= 1 && (w.unreffed ==> w.calls == 0 && !w.registered)
            && (w.registered || w.busy ==> w.live)
            && w.dropped == (if given && (w.unreffed || (w.calls == 1 && !w.busy)) then 1 else 0)
            && (given ==> (w.registered <==> !w.unreffed && w.calls == 0))
  {
    RunsAreSound(given, es);
    StaysGiven(given, es);
  }

  /** With a callback, what happened to the GObject shows in the record. */
  predicate Recorded(w: Weak) {
    w.obj || w.unreffed || w.calls == 1
  }

  lemma {:induction false} StaysGiven(given: bool, es: seq<Event>)
    requires After(New(given), es).Some?
    ensures given ==> Recorded(After(New(given), es).value)
  {
    if es != [] {
      var before := es[..|es| - 1];
      RunsAreSound(given, before);
      StaysGiven(given, before);
    }
  }

  // ---------- the same without reference counts ----------

  /** What is to be seen of a weak reference. */
  datatype Story = Story(outside: nat, obj: bool, busy: bool, calls: nat, dropped: nat, unreffed: bool)

  function StoryOf(w: Weak): Story {
    Story(w.outside, w.obj, w.busy, w.calls, w.dropped, w.unreffed)
  }

  /** What an event should do; `given` says whether there is a callback, whose floating reference keeps the
      weak reference until the callback is done or unref was called. */
  function Effect(s: Story, e: Event, given: bool): Story {
    match e
    case Hold => s.(outside := s.outside + 1)
    case Drop =>
      if s.outside > 1 then s.(outside := s.outside - 1)
      else s.(outside := 0, obj := s.obj && given && s.dropped == 0)
    case CallUnref =>
      if !s.obj then s
      else s.(obj := false, unreffed := true, dropped := if given then 1 else 0)
    case Finalise =>
      if given then s.(obj := false, calls := s.calls + 1, busy := true) else s.(obj := false)
    case CallbackReturns => s.(busy := false, dropped := 1)
  }

  /** Every possible event succeeds and does what it should; the weak reference lives while something refers
      to it, and is registered with the GObject while it lives and refers to it. */
  lemma EventsDo(w: Weak, e: Event, given: bool)
    requires Sound(w, given) && Possible(w, e)
    ensures Next(w, e).Some? && StoryOf(Next(w, e).value) == Effect(StoryOf(w), e, given)
    ensures Next(w, e).value.live <==> Next(w, e).value.outside > 0 || (given && Next(w, e).value.dropped == 0)
    ensures Next(w, e).value.registered <==> Next(w, e).value.obj
    ensures e.CallUnref? ==> Unref(w).Some? && (Unref(w).value.1 <==> w.obj)
  {
    match e {
      case Hold =>
      case Drop =>
      case CallUnref =>
      case Finalise =>
      case CallbackReturns =>
    }
  }

  // ---------- the object itself ----------

  class WeakRef {
    var live: bool
    var count: int
    var obj: bool
    var callback: bool
    var floating: bool
    ghost var registered: bool
    ghost var busy: bool
    ghost var outside: nat
    ghost var calls: nat
    ghost var dropped: nat
    ghost var unreffed: bool

    ghost function Now(): Weak
      reads this
    {
      Weak(live, count, obj, callback, floating, registered, busy, outside, calls, dropped, unreffed)
    }

    /** pygobject_weak_ref_new */
    constructor (withCallback: bool)
      ensures Now() == New(withCallback) && Sound(Now(), withCallback)
    {
      live, count, obj, callback := true, 1, true, withCallback;
      floating, registered, busy, outside, calls, dropped, unreffed := false, true, false, 1, 0, 0, false;
      new;
      if withCallback {
        floating := true;
        count := count + 1;
      }
    }

    method Clear()
      modifies this
      ensures Now() == old(Now()).(callback := false, obj := false, registered := old(registered) && !old(obj))
    {
      callback := false;
      if obj {
        registered := false;
        obj := false;
      }
    }

    method DecrefSelf()
      requires live
      modifies this
      ensures Decref(old(Now())) == Some(Now())
    {
      count := count - 1;
      if count == 0 {
        Clear();
        live := false;
      }
    }

    method NotifyBegins() returns (calling: bool)
      requires live
      modifies this
      ensures Notify(old(Now())) == Some(Now()) && calling == old(callback)
    {
      obj := false;
      calling := callback;
      if calling {
        calls := calls + 1;
        busy := true;
      }
    }

    method NotifyEnds()
      requires live
      modifies this
      ensures AfterCallback(old(Now())) == Some(Now())
    {
      busy := false;
      callback := false;
      if floating {
        floating := false;
        dropped := dropped + 1;
        DecrefSelf();
      }
    }

    method UnrefObject() returns (ok: bool)
      requires live
      modifies this
      ensures Unref(old(Now())) == Some((Now(), ok))
    {
      if !obj {
        return false;
      }
      registered := false;
      unreffed := true;
      obj := false;
      if floating {
        floating := false;
        dropped := dropped + 1;
        DecrefSelf();
      }
      ok := true;
    }

    /** Any event that can happen: nothing freed is used, and the record stays right. */
    method Do(e: Event, ghost given: bool)
      requires Sound(Now(), given) && Possible(Now(), e)
      modifies this
      ensures Next(old(Now()), e) == Some(Now()) && Sound(Now(), given)
    {
      NextKeepsSound(Now(), e, given);
      match e {
        case Hold =>
          outside := outside + 1;
          count := count + 1;
        case Drop =>
          outside := outside - 1;
          DecrefSelf();
        case CallUnref => var ok := UnrefObject();
        case Finalise =>
          registered := false;
          var calling := NotifyBegins();
        case CallbackReturns => NotifyEnds();
      }
    }

    /** A whole run of a new weak reference, event by event. */
    method Run(es: seq<Event>, ghost given: bool)
      requires Now() == New(given) && AllPossible(Now(), es)
      modifies this
      ensures After(New(given), es) == Some(Now()) && Sound(Now(), given)
    {
      for i := 0 to |es|
        invariant Sound(Now(), given) && After(New(given), es[..i]) == Some(Now())
      {
        NextPrefix(es, i);
        PossibleAt(New(given), es, i);
        Do(es[i], given);
      }
      Whole(es);
    }
  }

  /** Each event can happen when its turn comes. */
  predicate AllPossible(w: Weak, es: seq<Event>) {
    es == [] ||
    (var before := After(w, es[..|es| - 1]);
     AllPossible(w, es[..|es| - 1]) && before.Some? && Possible(before.value, es[|es| - 1]))
  }

  lemma {:induction false} PossibleAt(w: Weak, es: seq<Event>, i: nat)
    requires AllPossible(w, es) && i < |es|
    ensures After(w, es[..i]).Some? && Possible(After(w, es[..i]).value, es[i])
    decreases |es|
  {
    if i < |es| - 1 {
      var before := es[..|es| - 1];
      assert before[..i] == es[..i];
      PossibleAt(w, before, i);
    }
  }
}
