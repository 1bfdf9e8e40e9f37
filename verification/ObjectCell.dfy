/**
 One GObject, the Python wrappers made for it over time, and the functions of gobject/pygobject.c
 and of GLib that change them.

 GLib's functions have their documented meaning: a toggle notification is sent when the reference
 count moves between 1 and 2 and there is exactly one toggle reference.  `None` as a result means
 that the C code would touch a finalised GObject or a freed wrapper, or fail an assertion.
 */
module ObjectCell {
  import opened Wrappers

  type WrapperId = nat

  /** `Clearing` is the window in which pygobject_clear has erased the wrapper qdata and has dropped
      the GIL, but has not yet given up its reference. */
  datatype Phase = Live | Clearing(deallocating: bool) | Freed

  /** `refs` is the Python reference count; `held` of them are held by Python or C code outside. */
  datatype PyGObject = PyGObject(refs: nat, held: nat, hasObj: bool, hasDict: bool, usingToggle: bool, phase: Phase)

  datatype GObject = GObject(
    born: bool, count: nat, floating: bool, initiallyUnowned: bool, wrapper: Option<WrapperId>, toggles: seq<WrapperId>)

  /** `outside` counts the references to the GObject held by other code, `sunk` those taken by
      pygobject_sink on an object that was no longer floating. */
  datatype Cell = Cell(g: GObject, ws: map<WrapperId, PyGObject>, outside: nat, sunk: nat)

  const UNBORN := Cell(GObject(false, 0, false, false, None, []), map[], 0, 0)

  function Counted(c: Cell, count: nat): Cell {
    c.(g := c.g.(count := count))
  }

  function Set(c: Cell, w: WrapperId, p: PyGObject): Cell {
    c.(ws := c.ws[w := p])
  }

  predicate Allocated(c: Cell, w: WrapperId) {
    w in c.ws && !c.ws[w].phase.Freed?
  }

  /** Releasing references changes neither the ledger of outside references nor the GObject's birth. */
  predicate SameLedger(c: Cell, r: Option<Cell>) {
    r.Some? ==> r.value.outside == c.outside && r.value.sunk == c.sunk && r.value.g.born == c.g.born
  }

  // ---------- GLib ----------

  function Ref(c: Cell): Option<Cell> {
    if c.g.count == 0 then None else
    var counted := Counted(c, c.g.count + 1);
    if c.g.count == 1 && |c.g.toggles| == 1 then ToggleNotifyUp(counted, c.g.toggles[0]) else Some(counted)
  }

  function Unref(c: Cell): (r: Option<Cell>)
    ensures SameLedger(c, r)
    ensures r.Some? ==> r.value.g.count == c.g.count - 1 || (c.g.count == 2 && r.value.g.count == 0)
    decreases c.g.count, 0
  {
    if c.g.count == 0 then None else
    var counted := Counted(c, c.g.count - 1);
    if counted.g.count == 1 && |c.g.toggles| == 1 then ToggleNotifyDown(counted, c.g.toggles[0]) else Some(counted)
  }

  function AddToggleRef(c: Cell, w: WrapperId): Option<Cell> {
    match Ref(c)
    case None => None
    case Some(next) => Some(next.(g := next.g.(toggles := next.g.toggles + [w])))
  }

  function Without(ws: seq<WrapperId>, w: WrapperId): seq<WrapperId>
    requires w in ws
  {
    if ws[0] == w then ws[1..] else [ws[0]] + Without(ws[1..], w)
  }

  function RemoveToggleRef(c: Cell, w: WrapperId): (r: Option<Cell>)
    ensures SameLedger(c, r)
    ensures r.Some? ==> r.value.g.count <= c.g.count
    decreases c.g.count, 1
  {
    if w !in c.g.toggles then Some(c) else Unref(c.(g := c.g.(toggles := Without(c.g.toggles, w))))
  }

  // ---------- pygobject.c ----------

  function Incref(c: Cell, w: WrapperId): Option<Cell> {
    if Allocated(c, w) then Some(Set(c, w, c.ws[w].(refs := c.ws[w].refs + 1))) else None
  }

  function Decref(c: Cell, w: WrapperId): (r: Option<Cell>)
    ensures SameLedger(c, r)
    ensures r.Some? ==> r.value.g.count <= c.g.count
    decreases c.g.count, 4
  {
    if !Allocated(c, w) || c.ws[w].refs == 0 then None else
    var next := Set(c, w, c.ws[w].(refs := c.ws[w].refs - 1));
    if next.ws[w].refs == 0 then Dealloc(next, w) else Some(next)
  }

  function ToggleNotifyUp(c: Cell, w: WrapperId): Option<Cell> {
    Incref(c, w)
  }

  function ToggleNotifyDown(c: Cell, w: WrapperId): (r: Option<Cell>)
    ensures SameLedger(c, r)
    ensures r.Some? ==> r.value.g.count <= c.g.count
    decreases c.g.count, 5
  {
    Decref(c, w)
  }

  function SwitchToToggleRef(c: Cell, w: WrapperId): Option<Cell> {
    if c.g.count == 0 || !Allocated(c, w) then None
    else if c.ws[w].usingToggle then Some(c) else
    match Incref(Set(c, w, c.ws[w].(usingToggle := true)), w)
    case None => None
    case Some(kept) =>
      match AddToggleRef(kept, w)
      case None => None
      case Some(added) => Unref(added)
  }

  /** pygobject_sink, without the deprecated sink functions. */
  function Sink(c: Cell): Option<Cell> {
    if c.g.initiallyUnowned && !c.g.floating then
      match Ref(c)
      case None => None
      case Some(next) => Some(next.(sunk := next.sunk + 1))
    else Some(c.(g := c.g.(floating := false)))
  }

  function RegisterWrapper(c: Cell, w: WrapperId): Option<Cell> {
    match Sink(c)
    case None => None
    case Some(sunk) =>
      if sunk.g.count == 0 || !Allocated(sunk, w) then None else
      var tied := sunk.(g := sunk.g.(wrapper := Some(w)));
      if tied.ws[w].hasDict then SwitchToToggleRef(tied, w) else Some(tied)
  }

  /** pygobject_new_full: `spare` is the address a new wrapper gets, if one is needed. */
  function NewFull(c: Cell, spare: WrapperId): Option<(Cell, WrapperId)> {
    match c.g.wrapper
    case Some(w) =>
      (match Incref(c, w)
       case None => None
       case Some(next) => Some((Set(next, w, next.ws[w].(held := next.ws[w].held + 1)), w)))
    case None =>
      if spare in c.ws then None else
      match Ref(Set(c, spare, PyGObject(1, 1, true, false, false, Live)))
      case None => None
      case Some(next) =>
        match RegisterWrapper(next, spare)
        case None => None
        case Some(registered) => Some((registered, spare))
  }

  function GetDict(c: Cell, w: WrapperId): Option<Cell> {
    if !Allocated(c, w) then None
    else if c.ws[w].hasDict then Some(c) else
    var made := Set(c, w, c.ws[w].(hasDict := true));
    if c.ws[w].hasObj then SwitchToToggleRef(made, w) else Some(made)
  }

  /** `creates`: does the setattro of the parent type create the instance dictionary? */
  function SetAttr(c: Cell, w: WrapperId, creates: bool): Option<Cell> {
    if !Allocated(c, w) then None else
    var p := c.ws[w];
    var made := Set(c, w, p.(hasDict := p.hasDict || creates));
    if !p.hasDict && made.ws[w].hasDict && p.hasObj then SwitchToToggleRef(made, w) else Some(made)
  }

  /** pygobject_clear, up to the point where it drops the GIL. */
  function Clear(c: Cell, w: WrapperId, deallocating: bool): (r: Option<Cell>)
    ensures SameLedger(c, r)
    ensures r.Some? ==> r.value.g.count <= c.g.count
    decreases c.g.count, 2
  {
    if !Allocated(c, w) then None
    else if !c.ws[w].hasObj then Some(Cleared(c, w, deallocating)) else
    var untied := c.(g := c.g.(wrapper := None));
    if c.ws[w].hasDict then
      match RemoveToggleRef(untied, w)
      case None => None
      case Some(next) => if Allocated(next, w) then Some(Cleared(next, w, deallocating)) else None
    else Some(Set(untied, w, c.ws[w].(phase := Clearing(deallocating))))
  }

  function Cleared(c: Cell, w: WrapperId, deallocating: bool): Cell
    requires w in c.ws
  {
    Set(c, w, c.ws[w].(usingToggle := false, hasObj := false, hasDict := false,
                       phase := if deallocating then Freed else Live))
  }

  /** The rest of pygobject_clear, once its thread has given up the reference. */
  function FinishClear(c: Cell, w: WrapperId): Option<Cell> {
    if !Allocated(c, w) || !c.ws[w].phase.Clearing? then None else
    match Unref(c)
    case None => None
    case Some(next) =>
      if Allocated(next, w) then Some(Cleared(next, w, c.ws[w].phase.deallocating)) else None
  }

  function Dealloc(c: Cell, w: WrapperId): (r: Option<Cell>)
    ensures SameLedger(c, r)
    ensures r.Some? ==> r.value.g.count <= c.g.count
    decreases c.g.count, 3
  {
    Clear(c, w, true)
  }

  /** pygobject_constructv on a wrapper without object: g_object_newv, then registration.  The wrapper
      takes over the reference that creation returns. */
  function Construct(c: Cell, w: WrapperId, floating: bool, unowned: bool): Option<Cell> {
    if !Allocated(c, w) then None else
    var made := c.(g := GObject(true, 1, floating, unowned, None, []));
    RegisterWrapper(Set(made, w, c.ws[w].(hasObj := true)), w)
  }
}
