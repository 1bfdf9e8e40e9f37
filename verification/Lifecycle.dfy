/**
 All runs of the wrapper protocol: what Python code, C code holding the GObject, the cycle collector
 and a thread in the middle of pygobject_clear can do, in any order.
 */
module Lifecycle {
  import opened Wrappers
  import opened ObjectCell

  datatype Event =
    | CreateFromC(floating: bool, unowned: bool)
    | Allocate(w: WrapperId)
    | ConstructWrapper(w: WrapperId, floating: bool, unowned: bool)
    | Wrap(spare: WrapperId)
    | ReadDict(w: WrapperId)
    | WriteAttr(w: WrapperId, creates: bool)
    | HoldWrapper(w: WrapperId)
    | DropWrapper(w: WrapperId)
    | HoldObject
    | DropObject
    | DropSunk
    | CollectGarbage(w: WrapperId)
    | ResumeClear(w: WrapperId)

  predicate Reachable(c: Cell, w: WrapperId) {
    w in c.ws && c.ws[w].phase.Live? && c.ws[w].held > 0
  }

  /** Does the wrapper's count include the reference held by the toggle notification? */
  predicate KeptByToggle(c: Cell, w: WrapperId) {
    w in c.ws && c.ws[w].usingToggle && c.g.count > 1
  }

  /** What may happen next.  The collector clears a wrapper only when every reference to it comes from
      garbage, which the reference held by the toggle notification does not.  An object that was already
      sunk when it was wrapped belongs to the toolkit, which destroys it by DropSunk. */
  predicate Enabled(c: Cell, e: Event) {
    match e
    case CreateFromC(_, _) => !c.g.born
    case Allocate(w) => w !in c.ws
    case ConstructWrapper(w, _, _) => !c.g.born && Reachable(c, w)
    case Wrap(spare) => c.g.count > 0 && spare !in c.ws
    case ReadDict(w) => Reachable(c, w)
    case WriteAttr(w, _) => Reachable(c, w)
    case HoldWrapper(w) => Reachable(c, w)
    case DropWrapper(w) => Reachable(c, w)
    case HoldObject => c.g.count > 0
    case DropObject => c.outside > 0
    case DropSunk => c.sunk > 0
    case CollectGarbage(w) => Reachable(c, w) && !KeptByToggle(c, w)
    case ResumeClear(w) => w in c.ws && c.ws[w].phase.Clearing?
  }

  function Held(c: Cell, w: WrapperId, held: nat): Cell
    requires w in c.ws
  {
    Set(c, w, c.ws[w].(held := held))
  }

  function Step(c: Cell, e: Event): Option<Cell>
    requires Enabled(c, e)
  {
    match e
    case CreateFromC(floating, unowned) =>
      Some(c.(g := GObject(true, 1, floating, unowned, None, []), outside := c.outside + 1))
    case Allocate(w) => Some(Set(c, w, PyGObject(1, 1, false, false, false, Live)))
    case ConstructWrapper(w, floating, unowned) => Construct(c, w, floating, unowned)
    case Wrap(spare) => (match NewFull(c, spare) case None => None case Some(r) => Some(r.0))
    case ReadDict(w) => GetDict(c, w)
    case WriteAttr(w, creates) => SetAttr(c, w, creates)
    case HoldWrapper(w) => Incref(Held(c, w, c.ws[w].held + 1), w)
    case DropWrapper(w) => Decref(Held(c, w, c.ws[w].held - 1), w)
    case HoldObject => (match Ref(c) case None => None case Some(next) => Some(next.(outside := next.outside + 1)))
    case DropObject => Unref(c.(outside := c.outside - 1))
    case DropSunk => Unref(c.(sunk := c.sunk - 1))
    case CollectGarbage(w) => Clear(c, w, false)
    case ResumeClear(w) => FinishClear(c, w)
  }

  // ---------- the invariant ----------

  function Holders(c: Cell): set<WrapperId> {
    set w | w in c.ws && c.ws[w].hasObj
  }

  ghost predicate WrapperOk(c: Cell, w: WrapperId)
    requires w in c.ws
  {
    var p := c.ws[w];
    && (p.hasObj && p.phase.Live? <==> c.g.wrapper == Some(w))
    && (p.usingToggle <==> p.hasObj && p.hasDict)
    && (p.usingToggle <==> c.g.toggles == [w])
    && p.refs == p.held + (if KeptByToggle(c, w) then 1 else 0)
    && match p.phase
       case Live => p.refs > 0
       case Clearing(deallocating) => p.hasObj && !p.hasDict && (deallocating <==> p.refs == 0)
       case Freed => p.refs == 0 && !p.hasObj && !p.hasDict
  }

  /** `surplus` references to the GObject are in the hands of the function that is running. */
  ghost predicate Consistent(c: Cell, surplus: int) {
    && (forall w :: w in c.ws ==> WrapperOk(c, w))
    && (c.g.wrapper.Some? ==> c.g.wrapper.value in c.ws)
    && (c.g.toggles == [] || (|c.g.toggles| == 1 && c.g.toggles[0] in c.ws))
    && c.g.count == c.outside + c.sunk + |Holders(c)| + surplus
    && (!c.g.born ==> c.g.count == 0)
  }

  ghost predicate Inv(c: Cell) {
    Consistent(c, 0)
  }

  lemma HoldersAfterSet(c: Cell, w: WrapperId, p: PyGObject)
    ensures Holders(Set(c, w, p)) == if p.hasObj then Holders(c) + {w} else Holders(c) - {w}
  {
  }

  /** Dropping the last reference to a wrapper that uses a toggle reference finalises the GObject. */
  lemma DeallocWithToggle(c: Cell, w: WrapperId)
    requires w in c.ws && c.ws[w] == PyGObject(0, 0, true, true, true, Live)
    requires c.g.count == 1 && c.g.toggles == [w]
    ensures Dealloc(c, w) == Some(Cleared(Counted(c.(g := c.g.(wrapper := None, toggles := [])), 0), w, true))
  {
    var untied := c.(g := c.g.(wrapper := None));
    var released := untied.(g := untied.g.(toggles := []));
    assert Without(c.g.toggles, w) == [];
    assert RemoveToggleRef(untied, w) == Unref(released);
    assert Unref(released) == Some(Counted(released, 0));
    assert Dealloc(c, w) == Clear(c, w, true);
  }

  lemma UnrefKeeps(c: Cell)
    requires Consistent(c, 1) && c.g.count > 0
    ensures Unref(c).Some? && Inv(Unref(c).value)
  {
    var counted := Counted(c, c.g.count - 1);
    if counted.g.count == 1 && |c.g.toggles| == 1 {
      var w := c.g.toggles[0];
      assert c.g.toggles == [w];
      assert WrapperOk(c, w);
      LastReference(c, w);
    } else {
      assert Holders(counted) == Holders(c);
      assert Unref(c) == Some(counted);
      assert forall v :: v in counted.ws ==> WrapperOk(c, v);
      assert forall v :: v in counted.ws ==> WrapperOk(counted, v);
    }
  }

  /** The GObject's count falls to 1: the wrapper loses the reference the notification held. */
  lemma LastReference(c: Cell, w: WrapperId)
    requires Consistent(c, 1) && c.g.count == 2 && c.g.toggles == [w] && w in c.ws
    ensures Unref(c).Some? && Inv(Unref(c).value)
  {
    assert WrapperOk(c, w);
    var counted, p := Counted(c, 1), c.ws[w];
    var next := Set(counted, w, p.(refs := p.held));
    assert ToggleNotifyDown(counted, w) == Decref(counted, w);
    assert Decref(counted, w) == if p.held == 0 then Dealloc(next, w) else Some(next);
    assert Unref(c) == ToggleNotifyDown(counted, w);
    assert Holders(counted) == Holders(c);
    HoldersAfterSet(counted, w, p.(refs := p.held));
    if p.held == 0 {
      DeallocWithToggle(next, w);
      OnlyHolder(c, w);
      FinalisedIsConsistent(c, w, Dealloc(next, w).value);
    } else {
      forall v | v in next.ws
        ensures WrapperOk(next, v)
      {
        assert WrapperOk(c, v);
        StillHeldAt(c, w, v);
      }
    }
  }

  lemma StillHeldAt(c: Cell, w: WrapperId, v: WrapperId)
    requires w in c.ws && v in c.ws && WrapperOk(c, w) && WrapperOk(c, v)
    requires c.g.count == 2 && c.g.toggles == [w] && c.ws[w].held > 0
    ensures WrapperOk(Set(Counted(c, 1), w, c.ws[w].(refs := c.ws[w].held)), v)
  {
  }

  lemma FinalisedIsConsistent(c: Cell, w: WrapperId, end: Cell)
    requires Consistent(c, 1) && c.g.count == 2 && c.g.toggles == [w] && Holders(c) == {w}
    requires end == c.(g := c.g.(count := 0, wrapper := None, toggles := []),
                       ws := c.ws[w := PyGObject(0, 0, false, false, false, Freed)])
    ensures Inv(end)
  {
    assert WrapperOk(c, w);
    forall v | v in end.ws
      ensures WrapperOk(end, v) && !end.ws[v].hasObj
    {
      assert WrapperOk(c, v);
      assert v != w ==> v !in Holders(c);
    }
    assert Holders(end) == {};
  }

  lemma OnlyHolder(c: Cell, w: WrapperId)
    requires w in Holders(c) && |Holders(c)| <= 1
    ensures Holders(c) == {w}
  {
    var rest := Holders(c) - {w};
    assert |rest| == 0;
  }

  lemma RefKeeps(c: Cell, surplus: int)
    requires Consistent(c, surplus) && c.g.count > 0
    ensures Ref(c).Some? && Consistent(Ref(c).value, surplus + 1)
  {
    var next := Ref(c).value;
    if |c.g.toggles| == 1 {
      var w := c.g.toggles[0];
      assert c.g.toggles == [w];
      assert WrapperOk(c, w);
      HoldersAfterSet(Counted(c, c.g.count + 1), w, c.ws[w].(refs := c.ws[w].refs + 1));
    }
    assert Holders(next) == Holders(c);
    forall v | v in next.ws
      ensures WrapperOk(next, v)
    {
      assert WrapperOk(c, v);
    }
  }

  lemma ToggledIsWrapped(c: Cell, surplus: int)
    requires Consistent(c, surplus)
    ensures c.g.toggles != [] ==>
              var v := c.g.toggles[0]; c.g.toggles == [v] && v in c.ws && c.ws[v].usingToggle && c.g.wrapper == Some(v)
  {
    if c.g.toggles != [] {
      assert c.g.toggles == [c.g.toggles[0]];
      assert WrapperOk(c, c.g.toggles[0]);
    }
  }

  lemma SetTwice(c: Cell, w: WrapperId, p: PyGObject, q: PyGObject)
    ensures Set(Set(c, w, p), w, q) == Set(c, w, q)
  {
  }

  /** The wrapper `w` has just gained an instance dictionary: from now on it lives as long as anything
      else refers to the GObject. */
  function Toggled(c: Cell, w: WrapperId): Cell
    requires w in c.ws
  {
    var refs := c.ws[w].held + if c.g.count > 1 then 1 else 0;
    c.(g := c.g.(toggles := [w]), ws := c.ws[w := c.ws[w].(hasDict := true, usingToggle := true, refs := refs)])
  }

  lemma SwitchKeeps(c: Cell, w: WrapperId)
    requires Inv(c) && w in c.ws && c.ws[w].hasObj && c.ws[w].phase.Live? && !c.ws[w].hasDict
    ensures SwitchToToggleRef(Set(c, w, c.ws[w].(hasDict := true)), w) == Some(Toggled(c, w))
    ensures Inv(Toggled(c, w))
  {
    assert WrapperOk(c, w);
    var p := c.ws[w];
    assert c.g.wrapper == Some(w) && !p.usingToggle;
    ToggledIsWrapped(c, 0);
    assert w in Holders(c);
    SwitchResult(c, w);
    var end := Toggled(c, w);
    HoldersAfterSet(c, w, end.ws[w]);
    assert Holders(end) == Holders(c);
    forall v | v in end.ws
      ensures WrapperOk(end, v)
    {
      assert WrapperOk(c, v);
    }
  }

  lemma SwitchResult(c: Cell, w: WrapperId)
    requires w in c.ws && c.ws[w].phase.Live? && !c.ws[w].usingToggle && c.ws[w].refs == c.ws[w].held > 0
    requires c.g.count > 0 && c.g.toggles == []
    ensures SwitchToToggleRef(Set(c, w, c.ws[w].(hasDict := true)), w) == Some(Toggled(c, w))
  {
    var p, n := c.ws[w], c.g.count;
    var q := p.(hasDict := true, usingToggle := true);
    var kept := Set(c, w, q.(refs := p.refs + 1));
    SetTwice(c, w, p.(hasDict := true), q);
    SetTwice(c, w, q, q.(refs := p.refs + 1));
    assert Incref(Set(c, w, q), w) == Some(kept);
    var added := kept.(g := c.g.(count := n + 1, toggles := [w]));
    assert c.g.toggles + [w] == [w];
    assert AddToggleRef(kept, w) == Some(added);
    SwitchEnds(c, w, added);
  }

  /** The strong reference is given up, and the toggle reference is left. */
  lemma SwitchEnds(c: Cell, w: WrapperId, added: Cell)
    requires w in c.ws && c.ws[w].phase.Live? && c.ws[w].refs == c.ws[w].held > 0 && c.g.count > 0
    requires var p := c.ws[w];
             added == c.(g := c.g.(count := c.g.count + 1, toggles := [w]),
                         ws := c.ws[w := p.(hasDict := true, usingToggle := true, refs := p.refs + 1)])
    ensures Unref(added) == Some(Toggled(c, w))
  {
    var counted := Counted(added, c.g.count);
    if c.g.count == 1 {
      assert Unref(added) == ToggleNotifyDown(counted, w) == Decref(counted, w);
      var q := c.ws[w].(hasDict := true, usingToggle := true);
      SetTwice(c, w, counted.ws[w], q);
      assert counted.ws[w := q] == c.ws[w := q];
      assert Decref(counted, w) == Some(Set(counted, w, q));
    } else {
      assert Unref(added) == Some(counted);
    }
  }

  // ---------- each event keeps the invariant ----------

  /** A new wrapper for a GObject that has none. */
  function Wrapped(c: Cell, w: WrapperId): Cell {
    var again := c.g.initiallyUnowned && !c.g.floating;
    c.(g := c.g.(count := c.g.count + (if again then 2 else 1), floating := false, wrapper := Some(w)),
       ws := c.ws[w := PyGObject(1, 1, true, false, false, Live)], sunk := c.sunk + if again then 1 else 0)
  }

  lemma WrapFreshResult(c: Cell, w: WrapperId)
    requires Inv(c) && c.g.count > 0 && c.g.wrapper == None && w !in c.ws
    ensures NewFull(c, w) == Some((Wrapped(c, w), w))
  {
    ToggledIsWrapped(c, 0);
    var owned := Set(Counted(c, c.g.count + 1), w, PyGObject(1, 1, true, false, false, Live));
    assert Ref(Set(c, w, PyGObject(1, 1, true, false, false, Live))) == Some(owned);
    assert RegisterWrapper(owned, w) == Some(Wrapped(c, w));
  }

  lemma WrapFreshKeeps(c: Cell, w: WrapperId)
    requires Inv(c) && c.g.count > 0 && c.g.wrapper == None && w !in c.ws
    ensures NewFull(c, w).Some? && Inv(NewFull(c, w).value.0)
  {
    WrapFreshResult(c, w);
    ToggledIsWrapped(c, 0);
    var end := Wrapped(c, w);
    HoldersAfterSet(c, w, end.ws[w]);
    assert Holders(end) == Holders(c) + {w} && w !in Holders(c);
    forall v | v in end.ws
      ensures WrapperOk(end, v)
    {
      assert v != w ==> WrapperOk(c, v);
    }
  }

  lemma WrapExistingKeeps(c: Cell, w: WrapperId, spare: WrapperId)
    requires Inv(c) && c.g.wrapper == Some(w)
    ensures NewFull(c, spare) == Some((Set(c, w, c.ws[w].(refs := c.ws[w].refs + 1, held := c.ws[w].held + 1)), w))
    ensures Inv(NewFull(c, spare).value.0)
  {
    assert WrapperOk(c, w);
    var p := c.ws[w];
    SetTwice(c, w, p.(refs := p.refs + 1), p.(refs := p.refs + 1, held := p.held + 1));
    MoreHolds(c, w, p.held + 1);
  }

  /** Changing one wrapper, but not whether it holds the GObject, leaves the others as they were. */
  lemma SetKeeps(c: Cell, w: WrapperId, q: PyGObject)
    requires Inv(c) && w in c.ws && q.hasObj == c.ws[w].hasObj && WrapperOk(Set(c, w, q), w)
    ensures Inv(Set(c, w, q))
  {
    var next := Set(c, w, q);
    HoldersAfterSet(c, w, q);
    assert Holders(next) == Holders(c);
    forall v | v in next.ws
      ensures WrapperOk(next, v)
    {
      assert v != w ==> WrapperOk(c, v);
    }
  }

  /** References held by running code come and go without any other effect while some remain. */
  lemma MoreHolds(c: Cell, w: WrapperId, held: nat)
    requires Inv(c) && w in c.ws && c.ws[w].phase.Live?
    requires held > 0 || KeptByToggle(c, w)
    ensures Inv(Set(c, w, c.ws[w].(refs := c.ws[w].refs - c.ws[w].held + held, held := held)))
  {
    assert WrapperOk(c, w);
    SetKeeps(c, w, c.ws[w].(refs := c.ws[w].refs - c.ws[w].held + held, held := held));
  }

  lemma BeforeBirth(c: Cell)
    requires Inv(c) && !c.g.born
    ensures c.outside == 0 && c.sunk == 0 && Holders(c) == {} && c.g.wrapper == None && c.g.toggles == []
  {
    assert |Holders(c)| == 0;
    ToggledIsWrapped(c, 0);
    WrapperIsHolder(c);
  }

  lemma WrapperIsHolder(c: Cell)
    requires Inv(c)
    ensures c.g.wrapper.Some? ==> c.g.wrapper.value in Holders(c)
  {
    if c.g.wrapper.Some? {
      assert WrapperOk(c, c.g.wrapper.value);
    }
  }

  /** The cell in which the new GObject is tied to `w`, seen before `w` had an instance dictionary. */
  function Tied(c: Cell, w: WrapperId, floating: bool, unowned: bool): Cell
    requires w in c.ws
  {
    var again := unowned && !floating;
    c.(g := GObject(true, if again then 2 else 1, false, unowned, Some(w), []),
       sunk := c.sunk + (if again then 1 else 0),
       ws := c.ws[w := c.ws[w].(hasObj := true, hasDict := false)])
  }

  lemma TiedKeeps(c: Cell, w: WrapperId, floating: bool, unowned: bool)
    requires Inv(c) && !c.g.born && Reachable(c, w)
    ensures Inv(Tied(c, w, floating, unowned))
  {
    BeforeBirth(c);
    assert WrapperOk(c, w);
    var tied := Tied(c, w, floating, unowned);
    HoldersAfterSet(c, w, c.ws[w].(hasObj := true, hasDict := false));
    assert Holders(tied) == {w};
    forall v | v in tied.ws
      ensures WrapperOk(tied, v)
    {
      assert WrapperOk(c, v);
      assert v !in Holders(c);
    }
  }

  lemma TiedSwitches(c: Cell, w: WrapperId, floating: bool, unowned: bool)
    requires Inv(c) && !c.g.born && Reachable(c, w) && c.ws[w].hasDict
    ensures var made := Set(Tied(c, w, floating, unowned), w, c.ws[w].(hasObj := true));
            SwitchToToggleRef(made, w).Some? && Inv(SwitchToToggleRef(made, w).value)
  {
    TiedKeeps(c, w, floating, unowned);
    var tied := Tied(c, w, floating, unowned);
    assert tied.ws[w].(hasDict := true) == c.ws[w].(hasObj := true);
    SwitchKeeps(tied, w);
  }

  lemma ConstructKeeps(c: Cell, w: WrapperId, floating: bool, unowned: bool)
    requires Inv(c) && !c.g.born && Reachable(c, w)
    ensures Construct(c, w, floating, unowned).Some? && Inv(Construct(c, w, floating, unowned).value)
  {
    BeforeBirth(c);
    assert WrapperOk(c, w);
    assert w !in Holders(c);
    ConstructTies(c, w, floating, unowned);
    TiedKeeps(c, w, floating, unowned);
    if c.ws[w].hasDict {
      TiedSwitches(c, w, floating, unowned);
    }
  }

  lemma ConstructTies(c: Cell, w: WrapperId, floating: bool, unowned: bool)
    requires w in c.ws && c.ws[w].phase.Live? && !c.ws[w].hasObj
    ensures var made := Set(Tied(c, w, floating, unowned), w, c.ws[w].(hasObj := true));
            Construct(c, w, floating, unowned) ==
            if c.ws[w].hasDict then SwitchToToggleRef(made, w) else Some(Tied(c, w, floating, unowned))
  {
    var p := c.ws[w];
    assert Tied(c, w, floating, unowned).ws[w := p.(hasObj := true)] == c.ws[w := p.(hasObj := true)];
  }

  lemma DictKeeps(c: Cell, w: WrapperId)
    requires Inv(c) && Reachable(c, w) && !c.ws[w].hasDict
    ensures var made := Set(c, w, c.ws[w].(hasDict := true));
            if c.ws[w].hasObj then SwitchToToggleRef(made, w).Some? && Inv(SwitchToToggleRef(made, w).value)
            else Inv(made)
  {
    assert WrapperOk(c, w);
    if c.ws[w].hasObj {
      SwitchKeeps(c, w);
    } else {
      var made := Set(c, w, c.ws[w].(hasDict := true));
      HoldersAfterSet(c, w, made.ws[w]);
      assert Holders(made) == Holders(c);
      forall v | v in made.ws
        ensures WrapperOk(made, v)
      {
        assert WrapperOk(c, v);
      }
    }
  }

  /** pygobject_clear on a wrapper that no toggle notification keeps: `refs` references to it are left. */
  lemma ClearKeeps(c: Cell, w: WrapperId, refs: nat)
    requires Inv(c) && w in c.ws && c.ws[w].phase.Live? && !KeptByToggle(c, w)
    ensures var cleared := Clear(Set(c, w, c.ws[w].(refs := refs, held := refs)), w, refs == 0);
            cleared.Some? && Inv(cleared.value)
  {
    var p := c.ws[w];
    var q := p.(refs := refs, held := refs);
    if !p.hasObj {
      ClearEmpty(c, w, q);
    } else if p.hasDict {
      ClearToggled(c, w, q);
    } else {
      ClearStrong(c, w, q);
    }
  }

  /** What pygobject_clear makes of a wrapper that no toggle notification keeps. */
  lemma ClearResult(c: Cell, w: WrapperId, q: PyGObject)
    requires Inv(c) && w in c.ws && c.ws[w].phase.Live? && !KeptByToggle(c, w)
    requires q == c.ws[w].(refs := q.refs, held := q.refs)
    ensures var cleared := Clear(Set(c, w, q), w, q.refs == 0);
            var emptied := q.(usingToggle := false, hasObj := false, hasDict := false,
                              phase := if q.refs == 0 then Freed else Live);
            cleared == Some(
              if !c.ws[w].hasObj then Set(c, w, emptied)
              else if c.ws[w].hasDict then
                Set(c.(g := c.g.(count := 0, wrapper := None, toggles := [])), w, emptied)
              else Set(c.(g := c.g.(wrapper := None)), w, q.(phase := Clearing(q.refs == 0))))
  {
    assert WrapperOk(c, w);
    if c.ws[w].hasObj && c.ws[w].hasDict {
      assert w in Holders(c);
      OnlyHolder(c, w);
      assert c.g.count == 1 && c.g.toggles == [w];
      var untied := Set(c, w, q).(g := c.g.(wrapper := None));
      var released := untied.(g := untied.g.(toggles := []));
      assert Without(c.g.toggles, w) == [];
      assert RemoveToggleRef(untied, w) == Unref(released) == Some(Counted(released, 0));
    }
    SetTwice(c, w, q, Cleared(Set(c, w, q), w, q.refs == 0).ws[w]);
    SetTwice(c, w, q, q.(phase := Clearing(q.refs == 0)));
  }

  lemma ClearEmpty(c: Cell, w: WrapperId, q: PyGObject)
    requires Inv(c) && w in c.ws && c.ws[w].phase.Live? && !c.ws[w].hasObj
    requires q == c.ws[w].(refs := q.refs, held := q.refs)
    ensures var cleared := Clear(Set(c, w, q), w, q.refs == 0);
            cleared.Some? && Inv(cleared.value)
  {
    assert WrapperOk(c, w);
    var end := Cleared(Set(c, w, q), w, q.refs == 0);
    assert Clear(Set(c, w, q), w, q.refs == 0) == Some(end);
    SetTwice(c, w, q, end.ws[w]);
    HoldersAfterSet(c, w, end.ws[w]);
    assert Holders(end) == Holders(c);
    forall v | v in end.ws
      ensures WrapperOk(end, v)
    {
      assert WrapperOk(c, v);
    }
  }

  lemma ClearToggled(c: Cell, w: WrapperId, q: PyGObject)
    requires Inv(c) && w in c.ws && c.ws[w].phase.Live? && !KeptByToggle(c, w) && c.ws[w].hasObj && c.ws[w].hasDict
    requires q == c.ws[w].(refs := q.refs, held := q.refs)
    ensures var cleared := Clear(Set(c, w, q), w, q.refs == 0);
            cleared.Some? && Inv(cleared.value) && cleared.value.g.count == 0
  {
    assert WrapperOk(c, w);
    assert w in Holders(c);
    OnlyHolder(c, w);
    assert c.g.count == 1 && c.g.toggles == [w];
    var untied := Set(c, w, q).(g := c.g.(wrapper := None));
    var released := untied.(g := untied.g.(toggles := []));
    assert Without(c.g.toggles, w) == [];
    assert RemoveToggleRef(untied, w) == Unref(released) == Some(Counted(released, 0));
    var end := Cleared(Counted(released, 0), w, q.refs == 0);
    SetTwice(c, w, q, end.ws[w]);
    forall v | v in end.ws
      ensures WrapperOk(end, v) && !end.ws[v].hasObj
    {
      assert WrapperOk(c, v);
      assert v != w ==> v !in Holders(c);
    }
    assert Holders(end) == {};
  }

  lemma ClearStrong(c: Cell, w: WrapperId, q: PyGObject)
    requires Inv(c) && w in c.ws && c.ws[w].phase.Live? && c.ws[w].hasObj && !c.ws[w].hasDict
    requires q == c.ws[w].(refs := q.refs, held := q.refs)
    ensures var cleared := Clear(Set(c, w, q), w, q.refs == 0);
            cleared.Some? && Inv(cleared.value)
  {
    assert WrapperOk(c, w);
    ToggledIsWrapped(c, 0);
    var r := q.(phase := Clearing(q.refs == 0));
    var end := Set(c, w, r).(g := c.g.(wrapper := None));
    SetTwice(c, w, q, r);
    assert Clear(Set(c, w, q), w, q.refs == 0) == Some(end);
    HoldersAfterSet(c, w, r);
    assert Holders(end) == Holders(Set(c, w, r)) == Holders(c);
    forall v | v in end.ws
      ensures WrapperOk(end, v)
    {
      assert WrapperOk(c, v);
    }
  }

  /** The wrapper in the window of pygobject_clear is not the one the toggle reference belongs to. */
  lemma UnrefLeavesOthers(c: Cell, w: WrapperId, q: PyGObject)
    requires Consistent(c, 1) || Inv(c)
    requires c.g.count > 0 && w in c.ws && w !in c.g.toggles
    ensures Unref(Set(c, w, q)) == match Unref(c) case None => None case Some(next) => Some(Set(next, w, q))
    ensures Unref(c).Some? ==> w in Unref(c).value.ws && Unref(c).value.ws[w] == c.ws[w]
  {
    if c.g.count == 2 && |c.g.toggles| == 1 {
      var v := c.g.toggles[0];
      var counted := Counted(c, 1);
      assert c.g.toggles == [v] && v != w;
      assert Unref(c) == ToggleNotifyDown(counted, v) == Decref(counted, v);
      assert Unref(Set(c, w, q)) == ToggleNotifyDown(Set(counted, w, q), v) == Decref(Set(counted, w, q), v);
      DecrefLeavesOthers(counted, v, w, q);
    }
  }

  lemma DecrefLeavesOthers(c: Cell, v: WrapperId, w: WrapperId, q: PyGObject)
    requires v != w && w in c.ws && c.g.toggles == [v] && c.g.count == 1
    ensures Decref(Set(c, w, q), v) == match Decref(c, v) case None => None case Some(next) => Some(Set(next, w, q))
    ensures Decref(c, v).Some? ==> w in Decref(c, v).value.ws && Decref(c, v).value.ws[w] == c.ws[w]
  {
    if Allocated(c, v) && c.ws[v].refs > 0 {
      var p := c.ws[v].(refs := c.ws[v].refs - 1);
      var next := Set(c, v, p);
      SetsCommute(c, v, p, w, q);
      if p.refs == 0 {
        assert Dealloc(next, v) == Clear(next, v, true);
        assert Dealloc(Set(next, w, q), v) == Clear(Set(next, w, q), v, true);
        ClearLeavesOthers(next, v, w, q);
      }
    }
  }

  lemma SetsCommute(c: Cell, v: WrapperId, p: PyGObject, w: WrapperId, q: PyGObject)
    requires v != w
    ensures Set(Set(c, v, p), w, q) == Set(Set(c, w, q), v, p)
  {
    assert c.ws[v := p][w := q] == c.ws[w := q][v := p];
  }

  lemma ClearLeavesOthers(c: Cell, v: WrapperId, w: WrapperId, q: PyGObject)
    requires v != w && v in c.ws && w in c.ws && c.g.toggles == [v] && c.g.count == 1
    ensures Clear(Set(c, w, q), v, true) ==
            match Clear(c, v, true) case None => None case Some(next) => Some(Set(next, w, q))
    ensures Clear(c, v, true).Some? ==> w in Clear(c, v, true).value.ws && Clear(c, v, true).value.ws[w] == c.ws[w]
  {
    var untied := c.(g := c.g.(wrapper := None));
    var released := untied.(g := untied.g.(toggles := []));
    assert Without(c.g.toggles, v) == [];
    assert RemoveToggleRef(untied, v) == Unref(released) == Some(Counted(released, 0));
    assert RemoveToggleRef(Set(untied, w, q), v) == Unref(Set(released, w, q)) == Some(Counted(Set(released, w, q), 0));
    SetsCommute(Counted(released, 0), v, Cleared(c, v, true).ws[v], w, q);
    SetsCommute(untied, v, c.ws[v].(phase := Clearing(true)), w, q);
    SetsCommute(c, v, Cleared(c, v, true).ws[v], w, q);
  }

  /** In the window of pygobject_clear the thread has one reference to give up. */
  lemma GivenUp(c: Cell, w: WrapperId)
    requires Inv(c) && w in c.ws && c.ws[w].phase.Clearing?
    ensures var given := Set(c, w, Cleared(c, w, c.ws[w].phase.deallocating).ws[w]);
            Consistent(given, 1) && c.g.count > 0 && FinishClear(c, w) == Unref(given)
  {
    assert WrapperOk(c, w);
    assert w in Holders(c);
    var q := Cleared(c, w, c.ws[w].phase.deallocating).ws[w];
    var given := Set(c, w, q);
    HoldersAfterSet(c, w, q);
    forall v | v in given.ws
      ensures WrapperOk(given, v)
    {
      assert WrapperOk(c, v);
    }
    ToggledIsWrapped(c, 0);
    UnrefKeeps(given);
    UnrefLeavesOthers(c, w, q);
  }

  lemma FinishClearKeeps(c: Cell, w: WrapperId)
    requires Inv(c) && w in c.ws && c.ws[w].phase.Clearing?
    ensures FinishClear(c, w).Some? && Inv(FinishClear(c, w).value)
  {
    GivenUp(c, w);
    UnrefKeeps(Set(c, w, Cleared(c, w, c.ws[w].phase.deallocating).ws[w]));
  }

  /** No event touches a finalised GObject or a freed wrapper, and the invariant survives each. */
  lemma StepKeeps(c: Cell, e: Event)
    requires Inv(c) && Enabled(c, e)
    ensures Step(c, e).Some? && Inv(Step(c, e).value)
  {
    match e {
      case CreateFromC(floating, unowned) =>
        BeforeBirth(c);
        PlainStep(c, Step(c, e).value);
      case Allocate(w) =>
        HoldersAfterSet(c, w, PyGObject(1, 1, false, false, false, Live));
        AllocateKeeps(c, w);
      case ConstructWrapper(w, floating, unowned) => ConstructKeeps(c, w, floating, unowned);
      case Wrap(spare) =>
        if c.g.wrapper.Some? {
          WrapExistingKeeps(c, c.g.wrapper.value, spare);
        } else {
          WrapFreshKeeps(c, spare);
        }
      case ReadDict(w) =>
        if !c.ws[w].hasDict {
          DictKeeps(c, w);
        }
      case WriteAttr(w, creates) => WriteAttrKeeps(c, w, creates);
      case HoldWrapper(w) => HoldWrapperKeeps(c, w);
      case DropWrapper(w) => DropKeeps(c, w);
      case HoldObject => HoldObjectKeeps(c);
      case DropObject =>
        PlainSurplus(c, c.(outside := c.outside - 1));
        UnrefKeeps(c.(outside := c.outside - 1));
      case DropSunk =>
        PlainSurplus(c, c.(sunk := c.sunk - 1));
        UnrefKeeps(c.(sunk := c.sunk - 1));
      case CollectGarbage(w) => CollectKeeps(c, w);
      case ResumeClear(w) => FinishClearKeeps(c, w);
    }
  }

  lemma PlainStep(c: Cell, next: Cell)
    requires Inv(c) && Holders(c) == {} && next.ws == c.ws && next.sunk == 0
    requires next.g.count == next.outside && next.g.wrapper == None && next.g.toggles == [] && next.g.born
    ensures Inv(next)
  {
    assert Holders(next) == {};
    forall w | w in next.ws
      ensures WrapperOk(next, w)
    {
      assert WrapperOk(c, w);
      assert w !in Holders(c);
    }
  }

  lemma AllocateKeeps(c: Cell, w: WrapperId)
    requires Inv(c) && w !in c.ws
    ensures Inv(Set(c, w, PyGObject(1, 1, false, false, false, Live)))
  {
    var next := Set(c, w, PyGObject(1, 1, false, false, false, Live));
    assert Holders(next) == Holders(c);
    ToggledIsWrapped(c, 0);
    forall v | v in next.ws
      ensures WrapperOk(next, v)
    {
      assert v != w ==> WrapperOk(c, v);
    }
  }

  /** One reference of the ledger is in the hands of the code that gives it up. */
  lemma PlainSurplus(c: Cell, next: Cell)
    requires Inv(c) && next.g == c.g && next.ws == c.ws && next.outside + next.sunk == c.outside + c.sunk - 1
    ensures Consistent(next, 1)
  {
    assert Holders(next) == Holders(c);
    forall v | v in next.ws
      ensures WrapperOk(next, v)
    {
      assert WrapperOk(c, v);
    }
  }

  lemma HoldObjectKeeps(c: Cell)
    requires Inv(c) && c.g.count > 0
    ensures Step(c, HoldObject).Some? && Inv(Step(c, HoldObject).value)
  {
    RefKeeps(c, 0);
    var counted := Ref(c).value;
    var next := counted.(outside := counted.outside + 1);
    assert Holders(next) == Holders(counted);
    forall v | v in next.ws
      ensures WrapperOk(next, v)
    {
      assert WrapperOk(counted, v);
    }
  }

  lemma WriteAttrKeeps(c: Cell, w: WrapperId, creates: bool)
    requires Inv(c) && Reachable(c, w)
    ensures SetAttr(c, w, creates).Some? && Inv(SetAttr(c, w, creates).value)
  {
    var p := c.ws[w];
    if !p.hasDict && creates {
      DictKeeps(c, w);
    } else {
      assert c.ws[w := p.(hasDict := p.hasDict || creates)] == c.ws;
      assert SetAttr(c, w, creates) == Some(c);
    }
  }

  lemma HoldWrapperKeeps(c: Cell, w: WrapperId)
    requires Inv(c) && Reachable(c, w)
    ensures Step(c, HoldWrapper(w)).Some? && Inv(Step(c, HoldWrapper(w)).value)
  {
    MoreHolds(c, w, c.ws[w].held + 1);
    HoldResult(c, w);
  }

  lemma HoldResult(c: Cell, w: WrapperId)
    requires Reachable(c, w)
    ensures var p := c.ws[w]; Step(c, HoldWrapper(w)) == Some(Set(c, w, p.(refs := p.refs + 1, held := p.held + 1)))
  {
    var p := c.ws[w];
    SetTwice(c, w, p.(held := p.held + 1), p.(refs := p.refs + 1, held := p.held + 1));
  }

  lemma CollectKeeps(c: Cell, w: WrapperId)
    requires Inv(c) && Reachable(c, w) && !KeptByToggle(c, w)
    ensures Clear(c, w, false).Some? && Inv(Clear(c, w, false).value)
  {
    assert WrapperOk(c, w);
    assert Set(c, w, c.ws[w].(refs := c.ws[w].refs, held := c.ws[w].refs)).ws == c.ws;
    ClearKeeps(c, w, c.ws[w].refs);
  }

  lemma DropKeeps(c: Cell, w: WrapperId)
    requires Inv(c) && Reachable(c, w)
    ensures Step(c, DropWrapper(w)).Some? && Inv(Step(c, DropWrapper(w)).value)
  {
    assert WrapperOk(c, w);
    var p := c.ws[w];
    DropResult(c, w);
    if p.refs == 1 {
      ClearKeeps(c, w, 0);
    } else {
      MoreHolds(c, w, p.held - 1);
    }
  }

  lemma DropResult(c: Cell, w: WrapperId)
    requires Reachable(c, w) && c.ws[w].refs > 0
    ensures var p := c.ws[w];
            var less := Set(c, w, p.(refs := p.refs - 1, held := p.held - 1));
            Step(c, DropWrapper(w)) == if p.refs == 1 then Clear(less, w, true) else Some(less)
  {
    var p := c.ws[w];
    var less := p.(refs := p.refs - 1, held := p.held - 1);
    SetTwice(c, w, p.(held := p.held - 1), less);
    assert Dealloc(Set(c, w, less), w) == Clear(Set(c, w, less), w, true);
  }

  // ---------- runs ----------

  /** `c` leads to `end` by the events `es`. */
  ghost predicate Leads(c: Cell, es: seq<Event>, end: Cell)
    decreases |es|
  {
    if es == [] then c == end
    else Enabled(c, es[0]) && Step(c, es[0]).Some? && Leads(Step(c, es[0]).value, es[1..], end)
  }

  /** After any run from the beginning: the wrapper qdata names a wrapper exactly when that is the one
      live wrapper that holds the GObject; the toggle flag is set exactly when a wrapper has both an object
      and an instance dictionary, and then its count includes one reference for the toggle exactly when the
      GObject's count exceeds 1; the GObject's count is the sum of the references from outside, of one for
      each wrapper that still holds it and of those taken in sinking; and no enabled event can fail. */
  lemma RunsKeepInvariant(es: seq<Event>, end: Cell)
    requires Leads(UNBORN, es, end)
    ensures Inv(end)
    ensures end.g.wrapper.Some? ==> end.g.wrapper.value in end.ws
    ensures forall w :: w in end.ws ==> (end.g.wrapper == Some(w) <==> end.ws[w].hasObj && end.ws[w].phase.Live?)
    ensures forall w :: w in end.ws ==> (end.ws[w].usingToggle <==> end.ws[w].hasObj && end.ws[w].hasDict)
    ensures forall w :: w in end.ws ==>
              end.ws[w].refs == end.ws[w].held + (if end.ws[w].usingToggle && end.g.count > 1 then 1 else 0)
    ensures end.g.count == end.outside + end.sunk + |Holders(end)|
    ensures forall e :: Enabled(end, e) ==> Step(end, e).Some?
  {
    assert Holders(UNBORN) == {};
    LeadsKeepsInv(UNBORN, es, end);
    assert forall w :: w in end.ws ==> WrapperOk(end, w);
    forall e | Enabled(end, e)
      ensures Step(end, e).Some?
    {
      StepKeeps(end, e);
    }
  }

  lemma {:induction false} LeadsKeepsInv(c: Cell, es: seq<Event>, end: Cell)
    requires Inv(c) && Leads(c, es, end)
    ensures Inv(end)
    decreases |es|
  {
    if es != [] {
      StepKeeps(c, es[0]);
      LeadsKeepsInv(Step(c, es[0]).value, es[1..], end);
    }
  }

  // ---------- the identity of a wrapper with an instance dictionary ----------

  ghost predicate Attached(c: Cell, w: WrapperId) {
    w in c.ws && c.ws[w].usingToggle && c.g.wrapper == Some(w)
  }

  ghost predicate KeptOrFinalised(c: Cell, next: Cell) {
    next.g.count == 0 || forall w :: Attached(c, w) ==> Attached(next, w)
  }

  lemma UnrefKeepsAttached(c: Cell)
    requires Consistent(c, 1) && c.g.count > 0
    ensures Unref(c).Some? && KeptOrFinalised(c, Unref(c).value)
  {
    if c.g.count == 2 && |c.g.toggles| == 1 {
      var w, counted := c.g.toggles[0], Counted(c, 1);
      assert c.g.toggles == [w];
      assert WrapperOk(c, w);
      var next := Set(counted, w, c.ws[w].(refs := c.ws[w].held));
      assert Unref(c) == ToggleNotifyDown(counted, w) == Decref(counted, w);
      if c.ws[w].held == 0 {
        assert Decref(counted, w) == Dealloc(next, w);
        DeallocWithToggle(next, w);
      }
    }
  }

  lemma AttachedIsUnique(c: Cell, w: WrapperId, v: WrapperId)
    requires Inv(c) && Attached(c, w) && v in c.ws && c.ws[v].hasObj && c.ws[v].phase.Live?
    ensures v == w
  {
    assert WrapperOk(c, v);
  }

  lemma StepKeepsAttached(c: Cell, e: Event)
    requires Inv(c) && Enabled(c, e)
    ensures Step(c, e).Some? && KeptOrFinalised(c, Step(c, e).value)
  {
    StepKeeps(c, e);
    var next := Step(c, e).value;
    forall w | Attached(c, w)
      ensures next.g.count == 0 || Attached(next, w)
    {
      assert WrapperOk(c, w);
      match e {
        case DropObject =>
          PlainSurplus(c, c.(outside := c.outside - 1));
          UnrefKeepsAttached(c.(outside := c.outside - 1));
          assert Attached(c.(outside := c.outside - 1), w);
        case DropSunk =>
          PlainSurplus(c, c.(sunk := c.sunk - 1));
          UnrefKeepsAttached(c.(sunk := c.sunk - 1));
          assert Attached(c.(sunk := c.sunk - 1), w);
        case DropWrapper(v) => DropKeepsAttached(c, v, w);
        case CollectGarbage(v) => CollectKeepsAttached(c, v, w);
        case ResumeClear(v) => FinishKeepsAttached(c, v, w);
        case ConstructWrapper(v, _, _) => BeforeBirth(c);
        case CreateFromC(_, _) => BeforeBirth(c);
        case HoldObject =>
        case HoldWrapper(v) =>
        case Allocate(v) =>
        case Wrap(spare) => WrapExistingKeeps(c, w, spare);
        case ReadDict(v) => DictKeepsAttached(c, v, w, true);
        case WriteAttr(v, creates) => DictKeepsAttached(c, v, w, creates);
      }
    }
  }

  lemma DictKeepsAttached(c: Cell, v: WrapperId, w: WrapperId, creates: bool)
    requires Inv(c) && Attached(c, w) && Reachable(c, v)
    ensures GetDict(c, v).Some? && Attached(GetDict(c, v).value, w)
    ensures SetAttr(c, v, creates).Some? && Attached(SetAttr(c, v, creates).value, w)
  {
    assert WrapperOk(c, w) && WrapperOk(c, v);
    if !c.ws[v].hasDict {
      assert v != w && !c.ws[v].hasObj;
    }
  }

  lemma DropKeepsAttached(c: Cell, v: WrapperId, w: WrapperId)
    requires Inv(c) && Attached(c, w) && Reachable(c, v)
    ensures var next := Step(c, DropWrapper(v)); next.Some? && (next.value.g.count == 0 || Attached(next.value, w))
  {
    assert WrapperOk(c, w) && WrapperOk(c, v);
    var p := c.ws[v];
    var q := p.(refs := p.refs - 1, held := p.held - 1);
    DropResult(c, v);
    if p.refs == 1 && v == w {
      ClearToggled(c, w, q);
    } else if p.refs == 1 {
      assert !p.hasObj;
      assert Clear(Set(c, v, q), v, true) == Some(Cleared(Set(c, v, q), v, true));
    }
  }

  lemma CollectKeepsAttached(c: Cell, v: WrapperId, w: WrapperId)
    requires Inv(c) && Attached(c, w) && Enabled(c, CollectGarbage(v))
    ensures var next := Clear(c, v, false); next.Some? && (next.value.g.count == 0 || Attached(next.value, w))
  {
    assert WrapperOk(c, w) && WrapperOk(c, v);
    if v == w {
      var p := c.ws[v];
      assert Set(c, v, p.(refs := p.refs, held := p.refs)).ws == c.ws;
      ClearToggled(c, w, p.(refs := p.refs, held := p.refs));
    } else {
      assert !c.ws[v].hasObj;
    }
  }

  lemma FinishKeepsAttached(c: Cell, v: WrapperId, w: WrapperId)
    requires Inv(c) && Attached(c, w) && Enabled(c, ResumeClear(v))
    ensures var next := FinishClear(c, v); next.Some? && (next.value.g.count == 0 || Attached(next.value, w))
  {
    assert WrapperOk(c, w) && WrapperOk(c, v);
    FinishClearKeeps(c, v);
    var q := Cleared(c, v, c.ws[v].phase.deallocating).ws[v];
    var given := Set(c, v, q);
    HoldersAfterSet(c, v, q);
    assert v in Holders(c) && v != w;
    forall u | u in given.ws
      ensures WrapperOk(given, u)
    {
      assert WrapperOk(c, u);
    }
    UnrefKeepsAttached(given);
    ToggledIsWrapped(c, 0);
    UnrefLeavesOthers(c, v, q);
    assert Attached(given, w);
    var next := Unref(c).value;
    assert Unref(given) == Some(Set(next, v, q));
    assert FinishClear(c, v) == Some(Set(next, v, q));
  }

  lemma FinalisedForEver(c: Cell, e: Event)
    requires Inv(c) && Enabled(c, e) && c.g.born && c.g.count == 0
    ensures Step(c, e).Some? && Step(c, e).value.g.born && Step(c, e).value.g.count == 0
  {
    StepKeeps(c, e);
    WrapperIsHolder(c);
    assert Holders(c) == {};
    if e.DropWrapper? {
      assert e.w !in Holders(c);
      DropResult(c, e.w);
    } else if e.CollectGarbage? || e.ResumeClear? || e.ReadDict? || e.WriteAttr? {
      assert e.w !in Holders(c);
      assert WrapperOk(c, e.w);
    }
  }

  /** A wrapper that has gained an instance dictionary stays the wrapper of its GObject, with that
      dictionary, until the GObject is finalised: every later lookup returns it. */
  lemma {:induction false} IdentityIsStable(c: Cell, es: seq<Event>, end: Cell, w: WrapperId, spare: WrapperId)
    requires Inv(c) && Leads(c, es, end) && c.g.born
    requires Attached(c, w) || c.g.count == 0
    ensures Inv(end)
    ensures end.g.count > 0 ==>
            Attached(end, w) && end.ws[w].hasDict && NewFull(end, spare).Some? && NewFull(end, spare).value.1 == w
    decreases |es|
  {
    if es == [] {
      if c.g.count > 0 {
        assert WrapperOk(c, w);
        WrapExistingKeeps(c, w, spare);
      }
    } else {
      StepKeeps(c, es[0]);
      var next := Step(c, es[0]).value;
      StaysBorn(c, es[0]);
      if c.g.count == 0 {
        FinalisedForEver(c, es[0]);
      } else {
        StepKeepsAttached(c, es[0]);
      }
      IdentityIsStable(next, es[1..], end, w, spare);
    }
  }

  /** A GObject once made has been made, whatever happens to it. */
  predicate Bears(c: Cell, r: Option<Cell>) {
    c.g.born && r.Some? ==> r.value.g.born
  }

  lemma SwitchBears(c: Cell, w: WrapperId)
    ensures Bears(c, SwitchToToggleRef(c, w))
  {
  }

  lemma RegisterBears(c: Cell, w: WrapperId)
    ensures Bears(c, RegisterWrapper(c, w))
  {
    if Sink(c).Some? {
      SwitchBears(Sink(c).value.(g := Sink(c).value.g.(wrapper := Some(w))), w);
    }
  }

  lemma WrapBears(c: Cell, spare: WrapperId)
    ensures NewFull(c, spare).Some? ==> Bears(c, Some(NewFull(c, spare).value.0))
  {
    if c.g.wrapper.None? && Ref(Set(c, spare, PyGObject(1, 1, true, false, false, Live))).Some? {
      RegisterBears(Ref(Set(c, spare, PyGObject(1, 1, true, false, false, Live))).value, spare);
    }
  }

  lemma StaysBorn(c: Cell, e: Event)
    requires Enabled(c, e)
    ensures Bears(c, Step(c, e))
  {
    match e {
      case Wrap(spare) => WrapBears(c, spare);
      case ReadDict(w) => SwitchBears(Set(c, w, c.ws[w].(hasDict := true)), w);
      case WriteAttr(w, creates) => SwitchBears(Set(c, w, c.ws[w].(hasDict := c.ws[w].hasDict || creates)), w);
      case _ =>
    }
  }

  /** When a wrapper with an instance dictionary is deallocated the GObject's count is exactly 1, apart
      from the reference that the event itself is giving up, and the GObject is finalised with it. */
  lemma DeallocatedLast(c: Cell, e: Event, w: WrapperId)
    requires Inv(c) && Enabled(c, e) && Attached(c, w)
    requires Step(c, e).Some? && w in Step(c, e).value.ws && Step(c, e).value.ws[w].phase.Freed?
    ensures c.g.count == 1 + (if e.DropObject? || e.DropSunk? || e.ResumeClear? then 1 else 0)
    ensures c.outside == (if e.DropObject? then 1 else 0) && c.sunk == (if e.DropSunk? then 1 else 0)
    ensures Step(c, e).value.g.count == 0
  {
    StepKeeps(c, e);
    StepKeepsAttached(c, e);
    var next := Step(c, e).value;
    assert WrapperOk(next, w);
    assert WrapperOk(c, w);
    assert w in Holders(c);
    match e {
      case DropObject =>
      case DropSunk =>
      case DropWrapper(v) => DropResult(c, v);
      case CollectGarbage(v) =>
      case ResumeClear(v) =>
        assert v in Holders(c) && v != w;
        assert {v, w} <= Holders(c);
        TwoHolders(c, v, w);
      case CreateFromC(_, _) =>
      case Allocate(_) =>
      case ConstructWrapper(_, _, _) => BeforeBirth(c);
      case Wrap(spare) => WrapExistingKeeps(c, w, spare);
      case ReadDict(v) => DictKeepsAttached(c, v, w, true);
      case WriteAttr(v, creates) => DictKeepsAttached(c, v, w, creates);
      case HoldObject =>
      case HoldWrapper(v) =>
    }
  }

  lemma TwoHolders(c: Cell, v: WrapperId, w: WrapperId)
    requires v != w && {v, w} <= Holders(c)
    ensures |Holders(c)| >= 2
  {
    var rest := Holders(c) - {v, w};
    assert Holders(c) == rest + {v, w};
  }

  lemma LeadsOn(c: Cell, e: Event, es: seq<Event>, end: Cell)
    requires Enabled(c, e) && Step(c, e).Some? && Leads(Step(c, e).value, es, end)
    ensures Leads(c, [e] + es, end)
  {
    assert ([e] + es)[1..] == es;
  }

  // ---------- runs that end ----------

  const PLAIN := PyGObject(1, 1, true, false, false, Live)
  const LEAVING := PyGObject(0, 0, true, false, false, Clearing(true))
  const GONE := PyGObject(0, 0, false, false, false, Freed)

  /** A wrapper without dictionary loses its last reference: it gives up the qdata, then the GObject. */
  lemma PlainWrapperGoes(c: Cell, w: WrapperId)
    requires w in c.ws && c.ws[w] == PLAIN && c.g.count > 0 && c.g.toggles == [] && c.g.wrapper == Some(w)
    ensures var left := Set(c, w, LEAVING).(g := c.g.(wrapper := None));
            && Enabled(c, DropWrapper(w)) && Step(c, DropWrapper(w)) == Some(left)
            && Enabled(left, ResumeClear(w))
            && Step(left, ResumeClear(w)) == Some(Set(Counted(left, c.g.count - 1), w, GONE))
  {
    DropResult(c, w);
    var less := PLAIN.(refs := 0, held := 0);
    var left := Set(c, w, LEAVING).(g := c.g.(wrapper := None));
    SetTwice(c, w, less, LEAVING);
    assert Clear(Set(c, w, less), w, true) == Some(left);
    assert Unref(left) == Some(Counted(left, c.g.count - 1));
  }

  const HELD := Cell(GObject(true, 1, false, false, None, []), map[], 1, 0)
  const WRAPPED := Cell(GObject(true, 2, false, false, Some(0), []), map[0 := PLAIN], 1, 0)
  const UNTIED := Cell(GObject(true, 2, false, false, None, []), map[0 := LEAVING], 1, 0)
  const ALONE := Cell(GObject(true, 1, false, false, None, []), map[0 := GONE], 1, 0)
  const REWRAPPED := Cell(GObject(true, 2, false, false, Some(1), []), map[0 := GONE, 1 := PLAIN], 1, 0)

  lemma FirstWrapper()
    ensures Leads(UNBORN, [CreateFromC(false, false)] + [Wrap(0)], WRAPPED)
  {
    assert Step(UNBORN, CreateFromC(false, false)) == Some(HELD);
    assert Step(HELD, Wrap(0)) == Some(WRAPPED);
    LeadsOn(HELD, Wrap(0), [], WRAPPED);
    assert [Wrap(0)] + [] == [Wrap(0)];
    LeadsOn(UNBORN, CreateFromC(false, false), [Wrap(0)], WRAPPED);
  }

  lemma SecondWrapper()
    ensures Leads(WRAPPED, [DropWrapper(0)] + ([ResumeClear(0)] + [Wrap(1)]), REWRAPPED)
  {
    PlainWrapperGoes(WRAPPED, 0);
    assert Set(WRAPPED, 0, LEAVING).(g := WRAPPED.g.(wrapper := None)) == UNTIED;
    assert Set(Counted(UNTIED, 1), 0, GONE) == ALONE;
    assert Step(ALONE, Wrap(1)) == Some(REWRAPPED);
    LeadsOn(ALONE, Wrap(1), [], REWRAPPED);
    assert [Wrap(1)] + [] == [Wrap(1)];
    LeadsOn(UNTIED, ResumeClear(0), [Wrap(1)], REWRAPPED);
    LeadsOn(WRAPPED, DropWrapper(0), [ResumeClear(0)] + [Wrap(1)], REWRAPPED);
  }

  lemma {:induction false} LeadsThrough(c: Cell, a: seq<Event>, mid: Cell, b: seq<Event>, end: Cell)
    requires Leads(c, a, mid) && Leads(mid, b, end)
    ensures Leads(c, a + b, end)
    decreases |a|
  {
    if a == [] {
      assert a + b == b;
    } else {
      LeadsThrough(Step(c, a[0]).value, a[1..], mid, b, end);
      assert (a + b)[1..] == a[1..] + b;
    }
  }

  /** The dictionary matters: a wrapper without one may go while other code holds the GObject, and the
      next lookup makes a new wrapper. */
  lemma PlainWrapperIsReplaced()
    ensures exists es, end :: Leads(UNBORN, es, end) && end.outside == 1 && end.g.wrapper == Some(1) &&
              0 in end.ws && end.ws[0].phase.Freed?
  {
    FirstWrapper();
    SecondWrapper();
    LeadsThrough(UNBORN, [CreateFromC(false, false)] + [Wrap(0)], WRAPPED,
                 [DropWrapper(0)] + ([ResumeClear(0)] + [Wrap(1)]), REWRAPPED);
  }

  const EMPTY_WRAPPER := Cell(UNBORN.g, map[0 := PLAIN.(hasObj := false)], 0, 0)
  const TOPLEVEL := Cell(GObject(true, 2, false, true, Some(0), []), map[0 := PLAIN], 0, 1)
  const DESTROYED := Cell(GObject(true, 1, false, true, Some(0), []), map[0 := PLAIN], 0, 0)

  /** An object that was sunk by its own construction, like a toplevel window, is finalised once the
      toolkit has given up its reference and its wrapper is gone. */
  lemma SunkObjectIsFinalised()
    ensures TOPLEVEL.sunk == 1
    ensures exists es, rest, end :: Leads(UNBORN, es, TOPLEVEL) && Leads(TOPLEVEL, rest, end) && end.g.count == 0
  {
    assert Step(UNBORN, Allocate(0)) == Some(EMPTY_WRAPPER);
    ConstructTies(EMPTY_WRAPPER, 0, false, true);
    assert Tied(EMPTY_WRAPPER, 0, false, true) == TOPLEVEL;
    assert Step(EMPTY_WRAPPER, ConstructWrapper(0, false, true)) == Some(TOPLEVEL);
    assert Step(TOPLEVEL, DropSunk) == Some(DESTROYED);
    PlainWrapperGoes(DESTROYED, 0);
    var left := Set(DESTROYED, 0, LEAVING).(g := DESTROYED.g.(wrapper := None));
    var end := Set(Counted(left, 0), 0, GONE);
    LeadsOn(left, ResumeClear(0), [], end);
    LeadsOn(DESTROYED, DropWrapper(0), [ResumeClear(0)] + [], end);
    LeadsOn(TOPLEVEL, DropSunk, [DropWrapper(0)] + ([ResumeClear(0)] + []), end);
    LeadsOn(EMPTY_WRAPPER, ConstructWrapper(0, false, true), [], TOPLEVEL);
    LeadsOn(UNBORN, Allocate(0), [ConstructWrapper(0, false, true)] + [], TOPLEVEL);
  }
}
