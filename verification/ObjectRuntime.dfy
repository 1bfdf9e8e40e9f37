/**
 The C functions of gobject/pygobject.c as they run: each changes the GObject and its wrappers in
 place, in the order of its statements.  A method may be called where its counterpart in ObjectCell
 does not fail; `Do` calls them for any event that can happen, and keeps the invariant of Lifecycle.
 */
module ObjectRuntime {
  import opened Wrappers
  import opened ObjectCell
  import opened Lifecycle

  class Runtime {
    var g: GObject
    var ws: map<WrapperId, PyGObject>
    var outside: nat
    var sunk: nat

    function Now(): Cell
      reads this
    {
      Cell(g, ws, outside, sunk)
    }

    constructor ()
      ensures Now() == UNBORN && Inv(Now())
    {
      g, ws, outside, sunk := UNBORN.g, map[], 0, 0;
      new;
      assert Holders(UNBORN) == {};
    }

    // ---------- GLib ----------

    method GObjectRef()
      requires Ref(Now()).Some?
      modifies this
      ensures Some(Now()) == Ref(old(Now()))
    {
      g := g.(count := g.count + 1);
      if g.count == 2 && |g.toggles| == 1 {
        ToggleNotify(g.toggles[0], false);
      }
    }

    method GObjectUnref()
      requires Unref(Now()).Some?
      modifies this
      ensures Some(Now()) == Unref(old(Now()))
      decreases g.count, 0
    {
      g := g.(count := g.count - 1);
      if g.count == 1 && |g.toggles| == 1 {
        ToggleNotify(g.toggles[0], true);
      }
    }

    method GObjectAddToggleRef(w: WrapperId)
      requires AddToggleRef(Now(), w).Some?
      modifies this
      ensures Some(Now()) == AddToggleRef(old(Now()), w)
    {
      GObjectRef();
      g := g.(toggles := g.toggles + [w]);
    }

    method GObjectRemoveToggleRef(w: WrapperId)
      requires RemoveToggleRef(Now(), w).Some?
      modifies this
      ensures Some(Now()) == RemoveToggleRef(old(Now()), w)
      decreases g.count, 1
    {
      if w in g.toggles {
        g := g.(toggles := Without(g.toggles, w));
        GObjectUnref();
      }
    }

    // ---------- Python reference counts ----------

    method PyIncref(w: WrapperId)
      requires Incref(Now(), w).Some?
      modifies this`ws
      ensures Some(Now()) == Incref(old(Now()), w)
    {
      ws := ws[w := ws[w].(refs := ws[w].refs + 1)];
    }

    method PyDecref(w: WrapperId)
      requires Decref(Now(), w).Some?
      modifies this
      ensures Some(Now()) == Decref(old(Now()), w)
      decreases g.count, 4
    {
      ws := ws[w := ws[w].(refs := ws[w].refs - 1)];
      if ws[w].refs == 0 {
        PyGObjectDealloc(w);
      }
    }

    // ---------- pygobject.c ----------

    method ToggleNotify(w: WrapperId, isLastRef: bool)
      requires if isLastRef then ToggleNotifyDown(Now(), w).Some? else ToggleNotifyUp(Now(), w).Some?
      modifies this
      ensures Some(Now()) == if isLastRef then ToggleNotifyDown(old(Now()), w) else ToggleNotifyUp(old(Now()), w)
      decreases g.count, 5
    {
      if isLastRef {
        PyDecref(w);
      } else {
        PyIncref(w);
      }
    }

    method PyGObjectSwitchToToggleRef(w: WrapperId)
      requires SwitchToToggleRef(Now(), w).Some?
      modifies this
      ensures Some(Now()) == SwitchToToggleRef(old(Now()), w)
    {
      if ws[w].usingToggle {
        return;
      }
      ws := ws[w := ws[w].(usingToggle := true)];
      PyIncref(w);
      GObjectAddToggleRef(w);
      GObjectUnref();
    }

    method PyGObjectSink()
      requires Sink(Now()).Some?
      modifies this
      ensures Some(Now()) == Sink(old(Now()))
    {
      if g.initiallyUnowned && !g.floating {
        GObjectRef();
        sunk := sunk + 1;
      } else if g.floating {
        g := g.(floating := false);
      }
    }

    method PyGObjectRegisterWrapper(w: WrapperId)
      requires RegisterWrapper(Now(), w).Some?
      modifies this
      ensures Some(Now()) == RegisterWrapper(old(Now()), w)
    {
      PyGObjectSink();
      g := g.(wrapper := Some(w));
      if ws[w].hasDict {
        PyGObjectSwitchToToggleRef(w);
      }
    }

    method PyGObjectNewFull(spare: WrapperId) returns (w: WrapperId)
      requires NewFull(Now(), spare).Some?
      modifies this
      ensures Some((Now(), w)) == NewFull(old(Now()), spare)
    {
      if g.wrapper.Some? {
        w := g.wrapper.value;
        PyIncref(w);
        ws := ws[w := ws[w].(held := ws[w].held + 1)];
      } else {
        w := spare;
        ws := ws[w := PyGObject(1, 1, true, false, false, Live)];
        GObjectRef();
        PyGObjectRegisterWrapper(w);
      }
    }

    method PyGObjectGetDict(w: WrapperId)
      requires GetDict(Now(), w).Some?
      modifies this
      ensures Some(Now()) == GetDict(old(Now()), w)
    {
      if !ws[w].hasDict {
        ws := ws[w := ws[w].(hasDict := true)];
        if ws[w].hasObj {
          PyGObjectSwitchToToggleRef(w);
        }
      }
    }

    method PyGObjectSetAttro(w: WrapperId, creates: bool)
      requires SetAttr(Now(), w, creates).Some?
      modifies this
      ensures Some(Now()) == SetAttr(old(Now()), w, creates)
    {
      var dictBefore := ws[w].hasDict;
      ws := ws[w := ws[w].(hasDict := ws[w].hasDict || creates)];
      if !dictBefore && ws[w].hasDict {
        if ws[w].hasObj {
          PyGObjectSwitchToToggleRef(w);
        }
      }
    }

    /** Returns at the point where the GIL is dropped, if the wrapper holds a plain reference. */
    method PyGObjectClear(w: WrapperId, deallocating: bool)
      requires Clear(Now(), w, deallocating).Some?
      modifies this
      ensures Some(Now()) == Clear(old(Now()), w, deallocating)
      decreases g.count, 2
    {
      if ws[w].hasObj {
        g := g.(wrapper := None);
        if ws[w].hasDict {
          GObjectRemoveToggleRef(w);
        } else {
          ws := ws[w := ws[w].(phase := Clearing(deallocating))];
          return;
        }
      }
      EndClear(w, deallocating);
    }

    method EndClear(w: WrapperId, deallocating: bool)
      requires w in ws
      modifies this`ws
      ensures Now() == Cleared(old(Now()), w, deallocating)
    {
      ws := ws[w := ws[w].(usingToggle := false, hasObj := false, hasDict := false,
                           phase := if deallocating then Freed else Live)];
    }

    method PyGObjectFinishClear(w: WrapperId)
      requires FinishClear(Now(), w).Some?
      modifies this
      ensures Some(Now()) == FinishClear(old(Now()), w)
    {
      var deallocating := ws[w].phase.deallocating;
      GObjectUnref();
      EndClear(w, deallocating);
    }

    method PyGObjectDealloc(w: WrapperId)
      requires Dealloc(Now(), w).Some?
      modifies this
      ensures Some(Now()) == Dealloc(old(Now()), w)
      decreases g.count, 3
    {
      PyGObjectClear(w, true);
    }

    method PyGObjectConstructv(w: WrapperId, floating: bool, unowned: bool)
      requires Construct(Now(), w, floating, unowned).Some?
      modifies this
      ensures Some(Now()) == Construct(old(Now()), w, floating, unowned)
    {
      g := GObject(true, 1, floating, unowned, None, []);
      ws := ws[w := ws[w].(hasObj := true)];
      PyGObjectRegisterWrapper(w);
    }

    // ---------- whole programs ----------

    /** g_object_new by C code, and the allocation of a wrapper by Python code. */
    method CreateFromOutside(floating: bool, unowned: bool)
      modifies this
      ensures Now() == old(Now()).(g := GObject(true, 1, floating, unowned, None, []), outside := old(outside) + 1)
    {
      g := GObject(true, 1, floating, unowned, None, []);
      outside := outside + 1;
    }

    method AllocateWrapper(w: WrapperId)
      modifies this`ws
      ensures Now() == Set(old(Now()), w, PyGObject(1, 1, false, false, false, Live))
    {
      ws := ws[w := PyGObject(1, 1, false, false, false, Live)];
    }

    /** References that code outside takes and gives up. */
    method HoldByOutside()
      requires Ref(Now()).Some?
      modifies this
      ensures Enabled(old(Now()), HoldObject) && Some(Now()) == Step(old(Now()), HoldObject)
    {
      GObjectRef();
      outside := outside + 1;
    }

    method DropByOutside(bySinking: bool)
      requires var e := if bySinking then DropSunk else DropObject; Enabled(Now(), e) && Step(Now(), e).Some?
      modifies this
      ensures Some(Now()) == Step(old(Now()), if bySinking then DropSunk else DropObject)
    {
      if bySinking {
        sunk := sunk - 1;
      } else {
        outside := outside - 1;
      }
      GObjectUnref();
    }

    method HoldByPython(w: WrapperId)
      requires Enabled(Now(), HoldWrapper(w))
      modifies this`ws
      ensures Some(Now()) == Step(old(Now()), HoldWrapper(w))
    {
      ws := ws[w := ws[w].(held := ws[w].held + 1)];
      PyIncref(w);
    }

    method DropByPython(w: WrapperId)
      requires Enabled(Now(), DropWrapper(w)) && Step(Now(), DropWrapper(w)).Some?
      modifies this
      ensures Some(Now()) == Step(old(Now()), DropWrapper(w))
    {
      ws := ws[w := ws[w].(held := ws[w].held - 1)];
      PyDecref(w);
    }

    /** Any event that can happen: no call touches a finalised GObject or a freed wrapper. */
    method Do(e: Event)
      requires Inv(Now()) && Enabled(Now(), e)
      modifies this
      ensures Some(Now()) == Step(old(Now()), e) && Inv(Now())
    {
      StepKeeps(Now(), e);
      match e {
        case CreateFromC(floating, unowned) => CreateFromOutside(floating, unowned);
        case Allocate(w) => AllocateWrapper(w);
        case ConstructWrapper(w, floating, unowned) => PyGObjectConstructv(w, floating, unowned);
        case Wrap(spare) => var w := PyGObjectNewFull(spare);
        case ReadDict(w) => PyGObjectGetDict(w);
        case WriteAttr(w, creates) => PyGObjectSetAttro(w, creates);
        case HoldWrapper(w) => HoldByPython(w);
        case DropWrapper(w) => DropByPython(w);
        case HoldObject => HoldByOutside();
        case DropObject => DropByOutside(false);
        case DropSunk => DropByOutside(true);
        case CollectGarbage(w) => PyGObjectClear(w, false);
        case ResumeClear(w) => PyGObjectFinishClear(w);
      }
    }

    /** A whole run, event by event. */
    method Run(es: seq<Event>, ghost end: Cell)
      requires Inv(Now()) && Leads(Now(), es, end)
      modifies this
      ensures Now() == end && Inv(end)
    {
      for i := 0 to |es|
        invariant Inv(Now()) && Leads(Now(), es[i..], end)
      {
        assert es[i..][1..] == es[i + 1..];
        Do(es[i]);
      }
    }
  }
}
