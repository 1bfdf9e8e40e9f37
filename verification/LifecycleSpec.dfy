/**
 What the wrapper protocol is for, said without reference counts and toggle references: which wrappers
 hold the GObject, which have an instance dictionary, and who keeps them.  Every event of Lifecycle does
 to this view what `Effect` says.
 */
module LifecycleSpec {
  import opened Wrappers
  import opened ObjectCell
  import opened Lifecycle

  /** A wrapper as its users know it. */
  datatype Handle = Handle(held: nat, hasObj: bool, hasDict: bool, phase: Phase)

  datatype View = View(
    born: bool, floating: bool, unowned: bool, current: Option<WrapperId>, handles: map<WrapperId, Handle>,
    outside: nat, sunk: nat)

  function HandleOf(p: PyGObject): Handle {
    Handle(p.held, p.hasObj, p.hasDict, p.phase)
  }

  function Abs(c: Cell): View {
    View(c.g.born, c.g.floating, c.g.initiallyUnowned, c.g.wrapper, map w | w in c.ws :: HandleOf(c.ws[w]), c.outside,
         c.sunk)
  }

  /** Who refers to the GObject: other code, the registrations of a sunk object, and the wrappers. */
  function References(v: View): nat {
    v.outside + v.sunk + |set w | w in v.handles && v.handles[w].hasObj|
  }

  const EMPTIED := Handle(0, false, false, Freed)

  function With(v: View, w: WrapperId, h: Handle): View {
    v.(handles := v.handles[w := h])
  }

  /** A reference to the GObject is gone: a wrapper that nothing holds any more, and that only lived for its
      dictionary, goes with the GObject when it is the last to refer to it. */
  function Collapse(v: View): View {
    if v.current.None? || v.current.value !in v.handles then v else
    var h := v.handles[v.current.value];
    if h.hasDict && h.held == 0 && References(v) == 1 then With(v, v.current.value, EMPTIED).(current := None) else v
  }

  /** One of the wrapper's users lets go of it. */
  function LetGo(v: View, w: WrapperId): View
    requires w in v.handles && v.handles[w].held > 0
  {
    var h := v.handles[w].(held := v.handles[w].held - 1);
    if h.held > 0 || (h.hasObj && h.hasDict && References(v) > 1) then With(v, w, h)
    else if h.hasObj && !h.hasDict then With(v, w, h.(phase := Clearing(true))).(current := None)
    else With(v, w, EMPTIED).(current := if h.hasObj then None else v.current)
  }

  /** pygobject_clear by the collector. */
  function ClearedBy(v: View, w: WrapperId): View
    requires w in v.handles
  {
    var h := v.handles[w];
    if h.hasObj && !h.hasDict then With(v, w, h.(phase := Clearing(false))).(current := None)
    else With(v, w, h.(hasObj := false, hasDict := false)).(current := if h.hasObj then None else v.current)
  }

  /** The first wrapper of a GObject sinks it; one that is sunk already keeps the reference this takes. */
  function Sunk(v: View): View {
    v.(floating := false, sunk := v.sunk + if v.unowned && !v.floating then 1 else 0)
  }

  predicate Fits(v: View, e: Event) {
    match e
    case ConstructWrapper(w, _, _) => w in v.handles
    case Wrap(_) => v.current.Some? ==> v.current.value in v.handles
    case ReadDict(w) => w in v.handles
    case WriteAttr(w, _) => w in v.handles
    case HoldWrapper(w) => w in v.handles
    case DropWrapper(w) => w in v.handles && v.handles[w].held > 0
    case DropObject => v.outside > 0
    case DropSunk => v.sunk > 0
    case CollectGarbage(w) => w in v.handles
    case ResumeClear(w) => w in v.handles && v.handles[w].phase.Clearing?
    case _ => true
  }

  function Effect(v: View, e: Event): View
    requires Fits(v, e)
  {
    match e
    case CreateFromC(floating, unowned) =>
      v.(born := true, floating := floating, unowned := unowned, current := None, outside := v.outside + 1)
    case Allocate(w) => With(v, w, Handle(1, false, false, Live))
    case ConstructWrapper(w, floating, unowned) =>
      With(Sunk(v.(born := true, floating := floating, unowned := unowned)), w, v.handles[w].(hasObj := true)).(
        current := Some(w))
    case Wrap(spare) =>
      (match v.current
       case Some(w) => With(v, w, v.handles[w].(held := v.handles[w].held + 1))
       case None => With(Sunk(v), spare, Handle(1, true, false, Live)).(current := Some(spare)))
    case ReadDict(w) => With(v, w, v.handles[w].(hasDict := true))
    case WriteAttr(w, creates) => With(v, w, v.handles[w].(hasDict := v.handles[w].hasDict || creates))
    case HoldWrapper(w) => With(v, w, v.handles[w].(held := v.handles[w].held + 1))
    case DropWrapper(w) => LetGo(v, w)
    case HoldObject => v.(outside := v.outside + 1)
    case DropObject => Collapse(v.(outside := v.outside - 1))
    case DropSunk => Collapse(v.(sunk := v.sunk - 1))
    case CollectGarbage(w) => ClearedBy(v, w)
    case ResumeClear(w) =>
      var h := v.handles[w];
      Collapse(With(v, w, Handle(h.held, false, false, if h.phase.deallocating then Freed else Live)))
  }

  // ---------- the view of a cell ----------

  lemma AbsAfterSet(c: Cell, w: WrapperId, p: PyGObject)
    ensures Abs(Set(c, w, p)) == With(Abs(c), w, HandleOf(p))
  {
  }

  lemma ReferencesAre(c: Cell, surplus: int)
    requires Consistent(c, surplus)
    ensures References(Abs(c)) == c.g.count - surplus
  {
    var v := Abs(c);
    assert (set w | w in v.handles && v.handles[w].hasObj) == Holders(c);
  }

  lemma SameAbs(c: Cell, w: WrapperId, p: PyGObject)
    requires w in c.ws && HandleOf(p) == HandleOf(c.ws[w])
    ensures Abs(Set(c, w, p)) == Abs(c)
  {
    assert Abs(Set(c, w, p)).handles == Abs(c).handles;
  }

  /** The event succeeds, and does to the view what it should. */
  predicate Refines(c: Cell, e: Event)
    requires Enabled(c, e)
  {
    Fits(Abs(c), e) && Step(c, e).Some? && Abs(Step(c, e).value) == Effect(Abs(c), e)
  }

  // ---------- giving up a reference to the GObject ----------

  lemma UnrefView(c: Cell)
    requires Consistent(c, 1) && c.g.count > 0
    ensures Unref(c).Some? && Abs(Unref(c).value) == Collapse(Abs(c))
  {
    UnrefKeeps(c);
    ReferencesAre(c, 1);
    var counted := Counted(c, c.g.count - 1);
    if counted.g.count == 1 && |c.g.toggles| == 1 {
      LastView(c, c.g.toggles[0]);
    } else {
      assert Unref(c) == Some(counted);
      StaysWhole(c);
    }
  }

  /** Without a toggle reference, or with more than one reference left, nothing collapses. */
  lemma StaysWhole(c: Cell)
    requires Consistent(c, 1) && !(c.g.count == 2 && |c.g.toggles| == 1)
    ensures Collapse(Abs(c)) == Abs(c)
  {
    ReferencesAre(c, 1);
    if c.g.wrapper.Some? {
      assert WrapperOk(c, c.g.wrapper.value);
    }
  }

  lemma LastView(c: Cell, w: WrapperId)
    requires Consistent(c, 1) && c.g.count == 2 && c.g.toggles == [w] && w in c.ws
    ensures Unref(c).Some? && Abs(Unref(c).value) == Collapse(Abs(c))
  {
    assert WrapperOk(c, w);
    ReferencesAre(c, 1);
    var counted, p := Counted(c, 1), c.ws[w];
    LastDecref(c, w);
    SameAbs(counted, w, p.(refs := p.held));
    if p.held == 0 {
      FinalView(Set(counted, w, p.(refs := p.held)), w);
    }
  }

  lemma LastDecref(c: Cell, w: WrapperId)
    requires c.g.count == 2 && c.g.toggles == [w] && w in c.ws && c.ws[w].phase.Live? &&
             c.ws[w].refs == c.ws[w].held + 1
    ensures var next := Set(Counted(c, 1), w, c.ws[w].(refs := c.ws[w].held));
            Unref(c) == if c.ws[w].held == 0 then Dealloc(next, w) else Some(next)
  {
    var counted := Counted(c, 1);
    assert Unref(c) == ToggleNotifyDown(counted, w) == Decref(counted, w);
  }

  lemma FinalView(c: Cell, w: WrapperId)
    requires w in c.ws && c.ws[w] == PyGObject(0, 0, true, true, true, Live)
    requires c.g.count == 1 && c.g.toggles == [w]
    ensures Dealloc(c, w).Some? && Abs(Dealloc(c, w).value) == With(Abs(c), w, EMPTIED).(current := None)
  {
    DeallocWithToggle(c, w);
    var gone := PyGObject(0, 0, false, false, false, Freed);
    assert Dealloc(c, w).value.ws == c.ws[w := gone];
    AbsAfterSet(c, w, gone);
  }

  // ---------- each event ----------

  lemma SwitchView(c: Cell, w: WrapperId)
    requires Inv(c) && w in c.ws && c.ws[w].hasObj && c.ws[w].phase.Live? && !c.ws[w].hasDict
    ensures var switched := SwitchToToggleRef(Set(c, w, c.ws[w].(hasDict := true)), w);
            switched.Some? && Abs(switched.value) == With(Abs(c), w, HandleOf(c.ws[w]).(hasDict := true))
  {
    SwitchKeeps(c, w);
    AbsAfterSet(c, w, Toggled(c, w).ws[w]);
  }

  /** Reading or making the instance dictionary. */
  lemma DictView(c: Cell, w: WrapperId, creates: bool)
    requires Inv(c) && Reachable(c, w)
    ensures Refines(c, ReadDict(w)) && Refines(c, WriteAttr(w, creates))
  {
    assert WrapperOk(c, w);
    AbsAfterSet(c, w, c.ws[w]);
    assert Set(c, w, c.ws[w]) == c;
    AbsAfterSet(c, w, c.ws[w].(hasDict := true));
    if !c.ws[w].hasDict && c.ws[w].hasObj {
      SwitchView(c, w);
    }
  }

  lemma WrapView(c: Cell, spare: WrapperId)
    requires Inv(c) && Enabled(c, Wrap(spare))
    ensures Refines(c, Wrap(spare))
    ensures NewFull(c, spare).Some? && Effect(Abs(c), Wrap(spare)).current == Some(NewFull(c, spare).value.1)
  {
    if c.g.wrapper.Some? {
      var w := c.g.wrapper.value;
      WrapExistingKeeps(c, w, spare);
      AbsAfterSet(c, w, c.ws[w].(refs := c.ws[w].refs + 1, held := c.ws[w].held + 1));
    } else {
      WrapFreshResult(c, spare);
      AbsAfterSet(c, spare, PyGObject(1, 1, true, false, false, Live));
    }
  }

  /** The GObject is born with this wrapper, seen before the wrapper had a dictionary. */
  function BornWith(v: View, w: WrapperId, h: Handle, floating: bool, unowned: bool): View {
    With(Sunk(v.(born := true, floating := floating, unowned := unowned)), w, h).(current := Some(w))
  }

  lemma TiedView(c: Cell, w: WrapperId, floating: bool, unowned: bool)
    requires w in c.ws
    ensures Abs(Tied(c, w, floating, unowned)) ==
            BornWith(Abs(c), w, HandleOf(c.ws[w]).(hasObj := true, hasDict := false), floating, unowned)
  {
    AbsAfterSet(c, w, Tied(c, w, floating, unowned).ws[w]);
  }

  lemma TiedSwitchesView(c: Cell, w: WrapperId, floating: bool, unowned: bool)
    requires Inv(c) && !c.g.born && Reachable(c, w) && c.ws[w].hasDict
    ensures var tied := Tied(c, w, floating, unowned);
            var switched := SwitchToToggleRef(Set(tied, w, c.ws[w].(hasObj := true)), w);
            switched.Some? && Abs(switched.value) == With(Abs(tied), w, HandleOf(c.ws[w]).(hasObj := true))
  {
    var tied := Tied(c, w, floating, unowned);
    TiedKeeps(c, w, floating, unowned);
    SwitchView(tied, w);
    assert tied.ws[w].(hasDict := true) == c.ws[w].(hasObj := true);
  }

  lemma WithTwice(v: View, w: WrapperId, h: Handle, floating: bool, unowned: bool, last: Handle)
    ensures With(BornWith(v, w, h, floating, unowned), w, last) == BornWith(v, w, last, floating, unowned)
  {
  }

  lemma ConstructAbs(c: Cell, w: WrapperId, floating: bool, unowned: bool)
    requires Inv(c) && !c.g.born && Reachable(c, w)
    ensures Construct(c, w, floating, unowned).Some?
    ensures Abs(Construct(c, w, floating, unowned).value) ==
            BornWith(Abs(c), w, HandleOf(c.ws[w]).(hasObj := true), floating, unowned)
  {
    BeforeBirth(c);
    assert WrapperOk(c, w);
    assert w !in Holders(c);
    ConstructTies(c, w, floating, unowned);
    TiedView(c, w, floating, unowned);
    if c.ws[w].hasDict {
      TiedSwitchesView(c, w, floating, unowned);
      WithTwice(Abs(c), w, HandleOf(c.ws[w]).(hasObj := true, hasDict := false), floating, unowned,
                HandleOf(c.ws[w]).(hasObj := true));
    }
  }

  lemma ConstructView(c: Cell, w: WrapperId, floating: bool, unowned: bool)
    requires Inv(c) && !c.g.born && Reachable(c, w)
    ensures Refines(c, ConstructWrapper(w, floating, unowned))
  {
    ConstructAbs(c, w, floating, unowned);
  }

  lemma DropView(c: Cell, w: WrapperId)
    requires Inv(c) && Reachable(c, w)
    ensures Refines(c, DropWrapper(w))
  {
    assert WrapperOk(c, w);
    ReferencesAre(c, 0);
    var p := c.ws[w];
    var q := p.(refs := p.refs - 1, held := p.held - 1);
    DropResult(c, w);
    AbsAfterSet(c, w, q);
    if p.refs == 1 {
      ClearResult(c, w, q);
      AbsAfterSet(c, w, q.(hasObj := false, hasDict := false, usingToggle := false, phase := Freed));
      AbsAfterSet(c, w, q.(phase := Clearing(true)));
    }
  }

  lemma CollectView(c: Cell, w: WrapperId)
    requires Inv(c) && Enabled(c, CollectGarbage(w))
    ensures Refines(c, CollectGarbage(w))
  {
    assert WrapperOk(c, w);
    var p := c.ws[w];
    assert Set(c, w, p.(refs := p.refs, held := p.refs)) == c;
    ClearResult(c, w, p);
    AbsAfterSet(c, w, p.(hasObj := false, hasDict := false, usingToggle := false));
    AbsAfterSet(c, w, p.(phase := Clearing(false)));
  }

  lemma ResumeView(c: Cell, w: WrapperId)
    requires Inv(c) && Enabled(c, ResumeClear(w))
    ensures Refines(c, ResumeClear(w))
  {
    FinishClearKeeps(c, w);
    GivenUp(c, w);
    var q := Cleared(c, w, c.ws[w].phase.deallocating).ws[w];
    UnrefView(Set(c, w, q));
    AbsAfterSet(c, w, q);
    assert FinishClear(c, w) == Unref(Set(c, w, q));
  }

  lemma RefView(c: Cell)
    requires Inv(c) && c.g.count > 0
    ensures Ref(c).Some? && Abs(Ref(c).value) == Abs(c)
  {
    RefKeeps(c, 0);
    if c.g.count == 1 && |c.g.toggles| == 1 {
      var w := c.g.toggles[0];
      assert WrapperOk(c, w);
      SameAbs(Counted(c, 2), w, c.ws[w].(refs := c.ws[w].refs + 1));
    }
  }

  lemma HoldView(c: Cell)
    requires Inv(c) && c.g.count > 0
    ensures Refines(c, HoldObject)
  {
    RefView(c);
  }

  lemma HoldWrapperView(c: Cell, w: WrapperId)
    requires Inv(c) && Reachable(c, w)
    ensures Refines(c, HoldWrapper(w))
  {
    HoldResult(c, w);
    AbsAfterSet(c, w, c.ws[w].(refs := c.ws[w].refs + 1, held := c.ws[w].held + 1));
  }

  lemma CreateView(c: Cell, floating: bool, unowned: bool)
    requires Inv(c) && !c.g.born
    ensures Refines(c, CreateFromC(floating, unowned))
  {
    BeforeBirth(c);
  }

  lemma AllocateView(c: Cell, w: WrapperId)
    requires w !in c.ws
    ensures Refines(c, Allocate(w))
  {
    AbsAfterSet(c, w, PyGObject(1, 1, false, false, false, Live));
  }

  lemma DropObjectView(c: Cell)
    requires Inv(c) && c.outside > 0
    ensures Refines(c, DropObject)
  {
    GiveUpView(c, c.(outside := c.outside - 1));
  }

  lemma DropSunkView(c: Cell)
    requires Inv(c) && c.sunk > 0
    ensures Refines(c, DropSunk)
  {
    GiveUpView(c, c.(sunk := c.sunk - 1));
  }

  lemma GiveUpView(c: Cell, next: Cell)
    requires Inv(c) && next.g == c.g && next.ws == c.ws && next.outside + next.sunk == c.outside + c.sunk - 1
    ensures Unref(next).Some? && Abs(Unref(next).value) == Collapse(Abs(next))
  {
    PlainSurplus(c, next);
    UnrefView(next);
  }

  /** The reference counting does exactly what is to be seen of it, in every possible state. */
  lemma StepRefines(c: Cell, e: Event)
    requires Inv(c) && Enabled(c, e)
    ensures Refines(c, e)
  {
    match e {
      case CreateFromC(floating, unowned) => CreateView(c, floating, unowned);
      case Allocate(w) => AllocateView(c, w);
      case ConstructWrapper(w, floating, unowned) => ConstructView(c, w, floating, unowned);
      case Wrap(spare) => WrapView(c, spare);
      case ReadDict(w) => DictView(c, w, true);
      case WriteAttr(w, creates) => DictView(c, w, creates);
      case HoldWrapper(w) => HoldWrapperView(c, w);
      case DropWrapper(w) => DropView(c, w);
      case HoldObject => HoldView(c);
      case DropObject => DropObjectView(c);
      case DropSunk => DropSunkView(c);
      case CollectGarbage(w) => CollectView(c, w);
      case ResumeClear(w) => ResumeView(c, w);
    }
  }

  /** The view after a whole run. */
  function Effects(v: View, es: seq<Event>): Option<View>
    decreases |es|
  {
    if es == [] then Some(v) else if Fits(v, es[0]) then Effects(Effect(v, es[0]), es[1..]) else None
  }

  lemma {:induction false} RunsRefine(c: Cell, es: seq<Event>, end: Cell)
    requires Inv(c) && Leads(c, es, end)
    ensures Effects(Abs(c), es) == Some(Abs(end))
    decreases |es|
  {
    if es != [] {
      StepKeeps(c, es[0]);
      StepRefines(c, es[0]);
      RunsRefine(Step(c, es[0]).value, es[1..], end);
    }
  }

  /** Reading `__dict__` or setting an attribute that makes it ties the wrapper to its GObject. */
  lemma DictionaryAttaches(c: Cell, w: WrapperId, e: Event)
    requires Inv(c) && Reachable(c, w) && (e == ReadDict(w) || e == WriteAttr(w, true))
    ensures Step(c, e).Some? && w in Step(c, e).value.ws && Step(c, e).value.ws[w].hasDict
    ensures Step(c, e).value.ws[w].held == c.ws[w].held && Step(c, e).value.g.count == c.g.count
    ensures forall v :: v in c.ws && v != w ==> v in Step(c, e).value.ws && Step(c, e).value.ws[v] == c.ws[v]
    ensures c.ws[w].hasObj ==> Attached(Step(c, e).value, w)
  {
    assert WrapperOk(c, w);
    if !c.ws[w].hasDict && c.ws[w].hasObj {
      SwitchKeeps(c, w);
    }
  }

  lemma PlainAttributeChangesNothing(c: Cell, w: WrapperId)
    requires Inv(c) && Reachable(c, w)
    ensures Step(c, WriteAttr(w, false)) == Some(c)
  {
    assert c.ws[w := c.ws[w].(hasDict := c.ws[w].hasDict || false)] == c.ws;
  }
}
