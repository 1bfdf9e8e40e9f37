/**
 Who owns option groups made in Python (glib/pygoptiongroup.c, glib/pygoptioncontext.c and the transfer in
 glib/pyglib.c).  GLib's side is its documented behaviour: a context frees the groups it took, freeing a
 group runs its destroy notify, a second main group and a group without its texts are not taken.
 */
module OptionGroups {
  import opened Sequences
  import opened Wrappers

  /** A PyGOptionGroup and its GOptionGroup.  `complete`: name and descriptions are given.  Bookkeeping:
      `owner` is the context that will free the GOptionGroup and `entered` how many took it; `freed`
      counts its frees; `heldBy` is the context whose main_group field points here, `outside` counts the
      references of the program and `leaked` those that nothing will ever drop. */
  datatype Group = Group(
    live: bool, count: int, hasGroup: bool, hasCallback: bool, inContext: bool, complete: bool,
    owner: Option<nat>, entered: nat, freed: nat, heldBy: Option<nat>, outside: nat, leaked: nat)

  datatype Context = Context(live: bool, mainGroup: Option<nat>, gMain: Option<nat>, gGroups: seq<nat>)

  datatype World = World(groups: map<nat, Group>, contexts: map<nat, Context>)

  datatype Event =
    | NewGroup(g: nat, complete: bool)
    | NewContext(c: nat)
    | Hold(g: nat)
    | Drop(g: nat)
    | SetMainGroup(c: nat, g: nat)
    | AddGroup(c: nat, g: nat)
    | FreeContext(c: nat)

  const EMPTY := World(map[], map[])

  // ---------- the C functions; None is a use of freed memory ----------

  function New(complete: bool): Group {
    Group(true, 1, true, true, false, complete, None, 0, 0, None, 1, 0)
  }

  /** pyg_option_group_dealloc: a group that no context took is freed, and its destroy notify with it. */
  function Dealloc(gr: Group): Group {
    if gr.inContext || !gr.hasGroup then gr.(live := false)
    else gr.(live := false, hasGroup := false, hasCallback := false, freed := gr.freed + 1)
  }

  function Decref(gr: Group): Option<Group> {
    if !gr.live then None
    else if gr.count == 1 then Some(Dealloc(gr.(count := 0)))
    else Some(gr.(count := gr.count - 1))
  }

  function Incref(gr: Group): Option<Group> {
    if gr.live then Some(gr.(count := gr.count + 1)) else None
  }

  /** g_option_group_free by the owning context, with destroy_g_group. */
  function Destroy(gr: Group): Option<Group> {
    if !gr.live then None else
    var destroyed := gr.(hasGroup := false, hasCallback := false, freed := gr.freed + 1, owner := None);
    if gr.inContext then Decref(destroyed) else Some(destroyed)
  }

  /** pyglib_option_group_transfer_group; the flag is false when the group was transferred before. */
  function Transfer(gr: Group): Option<(Group, bool)> {
    if !gr.live then None
    else if gr.inContext then Some((gr, false))
    else Some((gr.(inContext := true, count := gr.count + 1), true))
  }

  function DropMain(groups: map<nat, Group>, main: Option<nat>): Option<map<nat, Group>> {
    if main.None? then Some(groups)
    else if main.value !in groups then None
    else
      match Decref(groups[main.value].(heldBy := None))
      case None => None
      case Some(gr) => Some(groups[main.value := gr])
  }

  function DestroyAll(groups: map<nat, Group>, ids: seq<nat>): Option<map<nat, Group>> {
    if ids == [] then Some(groups) else
    match DestroyAll(groups, ids[..|ids| - 1])
    case None => None
    case Some(done) =>
      var last := ids[|ids| - 1];
      if last !in done then None else
      match Destroy(done[last])
      case None => None
      case Some(gr) => Some(done[last := gr])
  }

  /** What g_option_context_free frees, in its order. */
  function Owned(ctx: Context): seq<nat> {
    (if ctx.gMain.Some? then [ctx.gMain.value] else []) + ctx.gGroups
  }

  /** pyg_option_context_dealloc */
  function DeallocContext(w: World, c: nat): Option<World>
    requires c in w.contexts
  {
    var ctx := w.contexts[c];
    match DropMain(w.groups, ctx.mainGroup)
    case None => None
    case Some(groups) =>
      match DestroyAll(groups, Owned(ctx))
      case None => None
      case Some(freed) => Some(World(freed, w.contexts[c := Context(false, None, None, [])]))
  }

  /** The reference that a main_group field gave up without dropping it. */
  function Forget(groups: map<nat, Group>, old_: Option<nat>): map<nat, Group> {
    if old_.Some? && old_.value in groups then
      groups[old_.value := groups[old_.value].(heldBy := None, leaked := groups[old_.value].leaked + 1)]
    else groups
  }

  /** pyg_option_context_set_main_group */
  function SetMain(w: World, c: nat, g: nat): Option<World>
    requires c in w.contexts && g in w.groups
  {
    match Transfer(w.groups[g])
    case None => None
    case Some((_, false)) => Some(w)
    case Some((moved, true)) =>
      var ctx := w.contexts[c];
      var taken := if ctx.gMain.None? then moved.(owner := Some(c), entered := moved.entered + 1) else moved;
      match Incref(taken)
      case None => None
      case Some(held) =>
        Some(World(Forget(w.groups, ctx.mainGroup)[g := held.(heldBy := Some(c))],
                   w.contexts[c := ctx.(mainGroup := Some(g),
                                        gMain := if ctx.gMain.None? then Some(g) else ctx.gMain)]))
  }

  /** pyg_option_context_add_group, whose own reference nothing drops. */
  function Add(w: World, c: nat, g: nat): Option<World>
    requires c in w.contexts && g in w.groups
  {
    match Transfer(w.groups[g])
    case None => None
    case Some((_, false)) => Some(w)
    case Some((moved, true)) =>
      match Incref(moved)
      case None => None
      case Some(held) =>
        var extra := held.(leaked := held.leaked + 1);
        var ctx := w.contexts[c];
        if extra.complete then
          Some(World(w.groups[g := extra.(owner := Some(c), entered := extra.entered + 1)],
                     w.contexts[c := ctx.(gGroups := ctx.gGroups + [g])]))
        else Some(World(w.groups[g := extra], w.contexts))
  }

  // ---------- runs ----------

  /** Objects are made once, and used only by a program that has a reference to them. */
  predicate Possible(w: World, e: Event) {
    match e
    case NewGroup(g, _) => g !in w.groups
    case NewContext(c) => c !in w.contexts
    case Hold(g) => g in w.groups && w.groups[g].outside > 0
    case Drop(g) => g in w.groups && w.groups[g].outside > 0
    case SetMainGroup(c, g) => c in w.contexts && w.contexts[c].live && g in w.groups && w.groups[g].outside > 0
    case AddGroup(c, g) => c in w.contexts && w.contexts[c].live && g in w.groups && w.groups[g].outside > 0
    case FreeContext(c) => c in w.contexts && w.contexts[c].live
  }

  function Next(w: World, e: Event): Option<World>
    requires Possible(w, e)
  {
    match e
    case NewGroup(g, complete) => Some(w.(groups := w.groups[g := New(complete)]))
    case NewContext(c) => Some(w.(contexts := w.contexts[c := Context(true, None, None, [])]))
    case Hold(g) =>
      (match Incref(w.groups[g].(outside := w.groups[g].outside + 1))
       case None => None
       case Some(gr) => Some(w.(groups := w.groups[g := gr])))
    case Drop(g) =>
      (match Decref(w.groups[g].(outside := w.groups[g].outside - 1))
       case None => None
       case Some(gr) => Some(w.(groups := w.groups[g := gr])))
    case SetMainGroup(c, g) => SetMain(w, c, g)
    case AddGroup(c, g) => Add(w, c, g)
    case FreeContext(c) => DeallocContext(w, c)
  }

  /** The events that are possible when their turn comes, one after the other. */
  function RunFrom(w: World, es: seq<Event>): Option<World>
    decreases |es|
  {
    if es == [] then Some(w) else
    match RunFrom(w, es[..|es| - 1])
    case None => None
    case Some(now) => if Possible(now, es[|es| - 1]) then Next(now, es[|es| - 1]) else Some(now)
  }

  function After(es: seq<Event>): Option<World> {
    RunFrom(EMPTY, es)
  }

  // ---------- the invariant ----------

  /** The reference a context has through the GOptionGroup it was handed, until that is freed. */
  function Ledger(gr: Group): int {
    gr.outside + gr.leaked + (if gr.inContext && gr.freed == 0 then 1 else 0) + (if gr.heldBy.Some? then 1 else 0)
  }

  predicate GroupSound(gr: Group) {
    && (gr.live ==> gr.count == Ledger(gr) && gr.count > 0)
    && gr.freed <= 1 && (gr.hasGroup <==> gr.freed == 0) && (gr.hasCallback <==> gr.freed == 0)
    && (!gr.live ==> gr.freed == 1 && gr.outside == 0 && gr.leaked == 0 && gr.heldBy.None?)
    && (gr.live && gr.freed == 1 ==> gr.inContext)
    && (gr.owner.Some? ==> gr.inContext && gr.freed == 0)
    && gr.entered <= 1 && (gr.entered == 1 <==> gr.owner.Some? || (gr.inContext && gr.freed == 1))
    && (!gr.inContext ==> gr.heldBy.None? && gr.leaked == 0)
  }

  predicate Distinct(ids: seq<nat>) {
    forall i, j :: 0 <= i < j < |ids| ==> ids[i] != ids[j]
  }

  /** What a context knows of groups, and what a group knows of contexts. */
  ghost predicate ContextLinked(w: World, c: nat)
    requires c in w.contexts
  {
    var ctx := w.contexts[c];
    && Distinct(Owned(ctx))
    && (forall g :: g in Owned(ctx) ==> g in w.groups && w.groups[g].owner == Some(c))
    && (ctx.mainGroup.Some? ==> ctx.mainGroup.value in w.groups && w.groups[ctx.mainGroup.value].heldBy == Some(c))
  }

  predicate GroupLinked(w: World, g: nat)
    requires g in w.groups
  {
    var gr := w.groups[g];
    && (gr.owner.Some? ==> gr.owner.value in w.contexts && g in Owned(w.contexts[gr.owner.value]))
    && (gr.heldBy.Some? ==> gr.heldBy.value in w.contexts && w.contexts[gr.heldBy.value].mainGroup == Some(g))
  }

  ghost predicate Linked(w: World) {
    (forall c :: c in w.contexts ==> ContextLinked(w, c)) && (forall g :: g in w.groups ==> GroupLinked(w, g))
  }

  predicate AllSound(groups: map<nat, Group>) {
    forall g :: g in groups ==> GroupSound(groups[g])
  }

  ghost predicate Sound(w: World) {
    AllSound(w.groups) && Linked(w)
  }

  // ---------- single groups ----------

  lemma DecrefKeeps(gr: Group, before: Group)
    requires GroupSound(before) && before.live
    requires gr == before.(outside := gr.outside, heldBy := gr.heldBy) && Ledger(gr) == Ledger(before) - 1
    requires gr.heldBy == before.heldBy || gr.heldBy.None?
    ensures Decref(gr).Some? && GroupSound(Decref(gr).value)
    ensures Decref(gr).value.owner == gr.owner && Decref(gr).value.heldBy == gr.heldBy
  {
  }

  lemma DestroyKeeps(gr: Group)
    requires GroupSound(gr) && gr.owner.Some?
    ensures Destroy(gr).Some? && GroupSound(Destroy(gr).value)
    ensures Destroy(gr).value.owner.None? && Destroy(gr).value.heldBy == gr.heldBy
  {
  }

  // ---------- single steps ----------

  lemma {:induction false} DestroyAllKeeps(groups: map<nat, Group>, ids: seq<nat>)
    requires AllSound(groups) && Distinct(ids)
    requires forall g :: g in ids ==> g in groups && groups[g].owner.Some?
    ensures DestroyAll(groups, ids).Some?
    ensures var freed := DestroyAll(groups, ids).value;
            && freed.Keys == groups.Keys && AllSound(freed)
            && (forall g :: g in groups && g !in ids ==> freed[g] == groups[g])
            && (forall g :: g in ids ==> freed[g].owner.None? && freed[g].heldBy == groups[g].heldBy)
  {
    if ids != [] {
      var before, last := ids[..|ids| - 1], ids[|ids| - 1];
      DestroyAllKeeps(groups, before);
      assert last in ids && last !in before;
      assert forall g :: g in before ==> g in ids;
      var done := DestroyAll(groups, before).value;
      assert done[last] == groups[last];
      DestroyKeeps(done[last]);
      assert forall g :: g in ids <==> g in before || g == last;
    }
  }

  lemma DropMainKeeps(w: World, c: nat)
    requires Sound(w) && c in w.contexts
    ensures DropMain(w.groups, w.contexts[c].mainGroup).Some?
    ensures var groups := DropMain(w.groups, w.contexts[c].mainGroup).value;
            && groups.Keys == w.groups.Keys && AllSound(groups)
            && (forall g :: g in groups ==> groups[g].owner == w.groups[g].owner)
            && (forall g :: g in groups ==>
                groups[g].heldBy == if w.groups[g].heldBy == Some(c) then None else w.groups[g].heldBy)
  {
    var main := w.contexts[c].mainGroup;
    assert ContextLinked(w, c);
    forall g | g in w.groups && w.groups[g].heldBy == Some(c)
      ensures main == Some(g)
    {
      assert GroupLinked(w, g);
    }
    if main.Some? {
      var gr := w.groups[main.value];
      DecrefKeeps(gr.(heldBy := None), gr);
    }
  }

  lemma FreeContextKeeps(w: World, c: nat)
    requires Sound(w) && Possible(w, FreeContext(c))
    ensures DeallocContext(w, c).Some? && Sound(DeallocContext(w, c).value)
  {
    DropMainKeeps(w, c);
    var ctx := w.contexts[c];
    var groups := DropMain(w.groups, ctx.mainGroup).value;
    assert ContextLinked(w, c);
    DestroyAllKeeps(groups, Owned(ctx));
    FreedIsLinked(w, c, DeallocContext(w, c).value);
  }

  lemma FreedIsLinked(w: World, c: nat, next: World)
    requires Linked(w) && c in w.contexts && next.contexts == w.contexts[c := Context(false, None, None, [])]
    requires next.groups.Keys == w.groups.Keys
    requires forall g :: g in w.groups ==>
             next.groups[g].owner == if g in Owned(w.contexts[c]) then None else w.groups[g].owner
    requires forall g :: g in w.groups ==>
             next.groups[g].heldBy == if w.groups[g].heldBy == Some(c) then None else w.groups[g].heldBy
    ensures Linked(next)
  {
    assert Owned(next.contexts[c]) == [];
    assert ContextLinked(w, c);
    forall d | d in next.contexts
      ensures ContextLinked(next, d)
    {
      if d != c {
        assert ContextLinked(w, d);
        forall g | g in Owned(w.contexts[d])
          ensures g in next.groups && next.groups[g].owner == Some(d)
        {
          assert w.groups[g].owner == Some(d);
        }
      }
    }
    forall g | g in next.groups
      ensures GroupLinked(next, g)
    {
      assert GroupLinked(w, g);
    }
  }

  /** Only group `g` has changed, and context `c` with it. */
  ghost predicate OnlyChanged(w: World, next: World, c: nat, g: nat) {
    && g in w.groups && c in w.contexts && next.groups.Keys == w.groups.Keys && next.contexts.Keys == w.contexts.Keys
    && (forall d :: d in w.contexts && d != c ==> next.contexts[d] == w.contexts[d])
    && (forall h :: h in w.groups && h != g ==> next.groups[h].owner == w.groups[h].owner)
  }

  lemma NotOwnedYet(w: World, g: nat)
    requires Sound(w) && g in w.groups && !w.groups[g].inContext
    ensures Unknown(w, g)
  {
    assert GroupSound(w.groups[g]);
    forall c | c in w.contexts
      ensures g !in Owned(w.contexts[c]) && w.contexts[c].mainGroup != Some(g)
    {
      assert ContextLinked(w, c);
    }
  }

  /** A group that no context knows is taken by `c`, in front of or behind its others, or not at all;
      `main` says whether it also becomes the main_group. */
  ghost predicate Takes(w: World, next: World, c: nat, g: nat, taken: bool, main: bool) {
    && OnlyChanged(w, next, c, g)
    && (var old_, new_ := Owned(w.contexts[c]), Owned(next.contexts[c]);
        if taken then new_ == [g] + old_ || new_ == old_ + [g] else new_ == old_)
    && next.contexts[c].mainGroup == (if main then Some(g) else w.contexts[c].mainGroup)
    && next.groups[g].owner == (if taken then Some(c) else None)
    && next.groups[g].heldBy == (if main then Some(c) else None)
    && (forall h :: h in w.groups && h != g ==>
          next.groups[h].heldBy == if main && w.contexts[c].mainGroup == Some(h) then None else w.groups[h].heldBy)
  }

  ghost predicate Unknown(w: World, g: nat) {
    && g in w.groups && w.groups[g].owner.None? && w.groups[g].heldBy.None?
    && forall d :: d in w.contexts ==> g !in Owned(w.contexts[d]) && w.contexts[d].mainGroup != Some(g)
  }

  lemma TakerIsLinked(w: World, next: World, c: nat, g: nat, taken: bool, main: bool)
    requires Linked(w) && Unknown(w, g) && Takes(w, next, c, g, taken, main)
    ensures ContextLinked(next, c)
  {
    assert ContextLinked(w, c);
    forall h | h in Owned(next.contexts[c])
      ensures h in next.groups && next.groups[h].owner == Some(c)
    {
      assert h in Owned(w.contexts[c]) || (taken && h == g);
    }
  }

  lemma OthersStayLinked(w: World, next: World, c: nat, g: nat, taken: bool, main: bool, d: nat)
    requires Linked(w) && Unknown(w, g) && Takes(w, next, c, g, taken, main) && d in w.contexts && d != c
    ensures ContextLinked(next, d)
  {
    assert ContextLinked(w, d);
  }

  lemma GroupsStayLinked(w: World, next: World, c: nat, g: nat, taken: bool, main: bool, h: nat)
    requires Linked(w) && Unknown(w, g) && Takes(w, next, c, g, taken, main) && h in w.groups
    ensures GroupLinked(next, h)
  {
    assert GroupLinked(w, h);
    if h == g && taken {
      assert g in Owned(next.contexts[c]);
    }
  }

  lemma TakenIsLinked(w: World, next: World, c: nat, g: nat, taken: bool, main: bool)
    requires Linked(w) && Unknown(w, g) && Takes(w, next, c, g, taken, main)
    ensures Linked(next)
  {
    forall d | d in next.contexts
      ensures ContextLinked(next, d)
    {
      if d == c {
        TakerIsLinked(w, next, c, g, taken, main);
      } else {
        OthersStayLinked(w, next, c, g, taken, main, d);
      }
    }
    forall h | h in next.groups
      ensures GroupLinked(next, h)
    {
      GroupsStayLinked(w, next, c, g, taken, main, h);
    }
  }

  /** A group after its transfer to `c`: with the reference that goes with it, and one for the
      main_group field or, when it is added, one that is never dropped. */
  function Moved(gr: Group, c: nat, taken: bool, main: bool): Group {
    var moved := gr.(inContext := true, count := gr.count + 2);
    var owned := if taken then moved.(owner := Some(c), entered := gr.entered + 1) else moved;
    if main then owned.(heldBy := Some(c)) else owned.(leaked := gr.leaked + 1)
  }

  lemma MovedKeeps(gr: Group, c: nat, taken: bool, main: bool)
    requires GroupSound(gr) && gr.live && !gr.inContext
    ensures GroupSound(Moved(gr, c, taken, main))
  {
  }

  lemma SetMainShape(w: World, c: nat, g: nat)
    requires c in w.contexts && g in w.groups && w.groups[g].live && !w.groups[g].inContext
    ensures SetMain(w, c, g) == Some(MainSet(w, c, g))
  {
  }

  lemma AddShape(w: World, c: nat, g: nat)
    requires c in w.contexts && g in w.groups && w.groups[g].live && !w.groups[g].inContext
    ensures var ctx, complete := w.contexts[c], w.groups[g].complete;
            Add(w, c, g) == Some(World(
              w.groups[g := Moved(w.groups[g], c, complete, false)],
              if complete then w.contexts[c := ctx.(gGroups := ctx.gGroups + [g])] else w.contexts))
  {
  }

  lemma SetMainKeeps(w: World, c: nat, g: nat)
    requires Sound(w) && Possible(w, SetMainGroup(c, g))
    ensures SetMain(w, c, g).Some? && Sound(SetMain(w, c, g).value)
  {
    assert GroupSound(w.groups[g]);
    if !w.groups[g].inContext {
      SetMainShape(w, c, g);
      ForgottenAndMoved(w, c, g);
    }
  }

  /** The world after SetMain, and its two parts. */
  function MainSet(w: World, c: nat, g: nat): World
    requires c in w.contexts && g in w.groups
  {
    var ctx := w.contexts[c];
    World(Forget(w.groups, ctx.mainGroup)[g := Moved(w.groups[g], c, ctx.gMain.None?, true)],
          w.contexts[c := ctx.(mainGroup := Some(g), gMain := if ctx.gMain.None? then Some(g) else ctx.gMain)])
  }

  lemma ForgottenAndMoved(w: World, c: nat, g: nat)
    requires Sound(w) && c in w.contexts && g in w.groups && w.groups[g].live && !w.groups[g].inContext
    ensures Sound(MainSet(w, c, g))
  {
    NotOwnedYet(w, g);
    MovedKeeps(w.groups[g], c, w.contexts[c].gMain.None?, true);
    ForgetKeeps(w, c, g);
    MainSetIsLinked(w, c, g);
  }

  lemma MainSetTakes(w: World, c: nat, g: nat)
    requires c in w.contexts && Unknown(w, g) && Forgets(w, Forget(w.groups, w.contexts[c].mainGroup), c)
    ensures Takes(w, MainSet(w, c, g), c, g, w.contexts[c].gMain.None?, true)
  {
    var ctx, next := w.contexts[c], MainSet(w, c, g);
    var newCtx := next.contexts[c];
    if ctx.gMain.None? {
      assert Owned(newCtx) == [g] + Owned(ctx);
    } else {
      assert Owned(newCtx) == Owned(ctx);
    }
  }

  lemma MainSetIsLinked(w: World, c: nat, g: nat)
    requires Sound(w) && c in w.contexts && g in w.groups && !w.groups[g].inContext
    ensures Linked(MainSet(w, c, g))
  {
    NotOwnedYet(w, g);
    ForgetKeeps(w, c, g);
    MainSetTakes(w, c, g);
    TakenIsLinked(w, MainSet(w, c, g), c, g, w.contexts[c].gMain.None?, true);
  }

  /** No group is held by `c` any more, and nothing else that links them has changed. */
  ghost predicate Forgets(w: World, groups: map<nat, Group>, c: nat)
    requires c in w.contexts
  {
    && groups.Keys == w.groups.Keys
    && (forall h :: h in groups ==> groups[h].owner == w.groups[h].owner)
    && (forall h :: h in groups ==>
          groups[h].heldBy == if w.contexts[c].mainGroup == Some(h) then None else w.groups[h].heldBy)
  }

  /** Overwriting main_group forgets a reference: it is counted as leaked. */
  lemma ForgetKeeps(w: World, c: nat, g: nat)
    requires Sound(w) && c in w.contexts && g in w.groups && w.contexts[c].mainGroup != Some(g)
    ensures var groups := Forget(w.groups, w.contexts[c].mainGroup); AllSound(groups) && Forgets(w, groups, c)
  {
    assert ContextLinked(w, c);
    var main := w.contexts[c].mainGroup;
    if main.Some? {
      assert GroupSound(w.groups[main.value]);
    }
  }

  lemma AddKeeps(w: World, c: nat, g: nat)
    requires Sound(w) && Possible(w, AddGroup(c, g))
    ensures Add(w, c, g).Some? && Sound(Add(w, c, g).value)
  {
    var gr, ctx := w.groups[g], w.contexts[c];
    assert GroupSound(gr);
    if !gr.inContext {
      AddShape(w, c, g);
      NotOwnedYet(w, g);
      MovedKeeps(gr, c, gr.complete, false);
      var next := Add(w, c, g).value;
      assert gr.complete ==> Owned(next.contexts[c]) == Owned(ctx) + [g];
      TakenIsLinked(w, next, c, g, gr.complete, false);
    }
  }

  /** A step that changes one group only, and nothing that links it. */
  lemma GroupStepKeeps(w: World, g: nat, gr: Group)
    requires Sound(w) && GroupSound(gr)
    requires if g in w.groups then gr.owner == w.groups[g].owner && gr.heldBy == w.groups[g].heldBy
             else gr.owner.None? && gr.heldBy.None?
    ensures Sound(w.(groups := w.groups[g := gr]))
  {
    var next := w.(groups := w.groups[g := gr]);
    forall c | c in next.contexts
      ensures ContextLinked(next, c)
    {
      assert ContextLinked(w, c);
    }
    forall h | h in next.groups
      ensures GroupLinked(next, h)
    {
      assert h in w.groups ==> GroupLinked(w, h);
    }
  }

  lemma NewContextKeeps(w: World, c: nat)
    requires Sound(w) && c !in w.contexts
    ensures Sound(w.(contexts := w.contexts[c := Context(true, None, None, [])]))
  {
    var next := w.(contexts := w.contexts[c := Context(true, None, None, [])]);
    assert Owned(next.contexts[c]) == [];
    forall d | d in next.contexts
      ensures ContextLinked(next, d)
    {
      assert d != c ==> ContextLinked(w, d);
    }
    forall h | h in next.groups
      ensures GroupLinked(next, h)
    {
      assert GroupLinked(w, h);
    }
  }

  lemma HoldKeeps(w: World, g: nat)
    requires Sound(w) && Possible(w, Hold(g))
    ensures Next(w, Hold(g)).Some? && Sound(Next(w, Hold(g)).value)
  {
    assert GroupSound(w.groups[g]);
    GroupStepKeeps(w, g, w.groups[g].(count := w.groups[g].count + 1, outside := w.groups[g].outside + 1));
  }

  lemma DropKeeps(w: World, g: nat)
    requires Sound(w) && Possible(w, Drop(g))
    ensures Next(w, Drop(g)).Some? && Sound(Next(w, Drop(g)).value)
  {
    var dropped := w.groups[g].(outside := w.groups[g].outside - 1);
    DecrefKeeps(dropped, w.groups[g]);
    GroupStepKeeps(w, g, Decref(dropped).value);
  }

  lemma NextKeepsSound(w: World, e: Event)
    requires Sound(w) && Possible(w, e)
    ensures Next(w, e).Some? && Sound(Next(w, e).value)
  {
    match e {
      case NewGroup(g, complete) => GroupStepKeeps(w, g, New(complete));
      case NewContext(c) => NewContextKeeps(w, c);
      case Hold(g) => HoldKeeps(w, g);
      case Drop(g) => DropKeeps(w, g);
      case SetMainGroup(c, g) => SetMainKeeps(w, c, g);
      case AddGroup(c, g) => AddKeeps(w, c, g);
      case FreeContext(c) => FreeContextKeeps(w, c);
    }
  }

  lemma {:induction false} RunsAreSound(w: World, es: seq<Event>)
    requires Sound(w)
    ensures RunFrom(w, es).Some? && Sound(RunFrom(w, es).value)
    decreases |es|
  {
    if es != [] {
      RunsAreSound(w, es[..|es| - 1]);
      var now := RunFrom(w, es[..|es| - 1]).value;
      if Possible(now, es[|es| - 1]) {
        NextKeepsSound(now, es[|es| - 1]);
      }
    }
  }

  /** Over every run: no freed wrapper is touched, by a destroy notify or otherwise; each GOptionGroup
      enters at most one context and is freed at most once, at the latest when its wrapper goes; and a
      wrapper lives exactly as long as the ledger has a reference. */
  lemma GroupsAreFreedOnce(es: seq<Event>, g: nat)
    ensures After(es).Some?
    ensures var w := After(es).value; g in w.groups ==>
              var gr := w.groups[g];
              && gr.entered <= 1 && gr.freed <= 1 && (!gr.live ==> gr.freed == 1)
              && (gr.live <==> Ledger(gr) > 0) && (gr.live ==> gr.count == Ledger(gr))
              && (gr.inContext && gr.freed == 0 && gr.owner.None? ==> gr.live)
  {
    RunsAreSound(EMPTY, es);
    if g in After(es).value.groups {
      assert GroupSound(After(es).value.groups[g]);
    }
  }

  // ---------- what becomes of a group that was handed over ----------

  /** How an event treats a group that was handed over: it is freed only with its owner, and a leaked
      reference stays. */
  predicate HandledWell(gr: Group, after: Group, freed: bool) {
    && gr.inContext && after.inContext && after.leaked >= gr.leaked
    && after.freed == (if freed then gr.freed + 1 else gr.freed) && after.owner == (if freed then None else gr.owner)
  }

  predicate FreesGroup(w: World, e: Event, g: nat)
    requires g in w.groups
  {
    e.FreeContext? && w.groups[g].owner == Some(e.c)
  }

  lemma {:induction false} DestroyAllFrees(groups: map<nat, Group>, ids: seq<nat>, g: nat)
    requires AllSound(groups) && Distinct(ids) && g in groups && groups[g].inContext
    requires forall h :: h in ids ==> h in groups && groups[h].owner.Some?
    ensures DestroyAll(groups, ids).Some? && g in DestroyAll(groups, ids).value
    ensures HandledWell(groups[g], DestroyAll(groups, ids).value[g], g in ids)
    decreases |ids|
  {
    DestroyAllKeeps(groups, ids);
    if ids != [] {
      var before, last := ids[..|ids| - 1], ids[|ids| - 1];
      assert last in ids && last !in before;
      assert forall h :: h in before ==> h in ids;
      DestroyAllKeeps(groups, before);
      DestroyAllFrees(groups, before, g);
      assert g in ids <==> g in before || g == last;
    }
  }

  lemma FreeContextHandles(w: World, c: nat, g: nat)
    requires Sound(w) && Possible(w, FreeContext(c)) && g in w.groups && w.groups[g].inContext
    ensures DeallocContext(w, c).Some? && g in DeallocContext(w, c).value.groups
    ensures HandledWell(w.groups[g], DeallocContext(w, c).value.groups[g], w.groups[g].owner == Some(c))
  {
    DropMainKeeps(w, c);
    var ctx := w.contexts[c];
    var groups := DropMain(w.groups, ctx.mainGroup).value;
    assert ContextLinked(w, c) && GroupLinked(w, g);
    assert HandledWell(w.groups[g], groups[g], false);
    DestroyAllFrees(groups, Owned(ctx), g);
  }

  lemma SetMainHandles(w: World, c: nat, h: nat, g: nat)
    requires Sound(w) && Possible(w, SetMainGroup(c, h)) && g in w.groups && w.groups[g].inContext
    ensures SetMain(w, c, h).Some? && g in SetMain(w, c, h).value.groups
    ensures HandledWell(w.groups[g], SetMain(w, c, h).value.groups[g], false)
  {
    assert GroupSound(w.groups[h]);
    if !w.groups[h].inContext {
      SetMainShape(w, c, h);
    }
  }

  lemma AddHandles(w: World, c: nat, h: nat, g: nat)
    requires Sound(w) && Possible(w, AddGroup(c, h)) && g in w.groups && w.groups[g].inContext
    ensures Add(w, c, h).Some? && g in Add(w, c, h).value.groups
    ensures HandledWell(w.groups[g], Add(w, c, h).value.groups[g], false)
  {
    assert GroupSound(w.groups[h]);
    if !w.groups[h].inContext {
      AddShape(w, c, h);
    }
  }

  lemma NextHandles(w: World, e: Event, g: nat)
    requires Sound(w) && Possible(w, e) && g in w.groups && w.groups[g].inContext
    ensures Next(w, e).Some? && g in Next(w, e).value.groups
    ensures HandledWell(w.groups[g], Next(w, e).value.groups[g], FreesGroup(w, e, g))
  {
    assert GroupSound(w.groups[g]);
    match e {
      case FreeContext(c) => FreeContextHandles(w, c, g);
      case SetMainGroup(c, h) => SetMainHandles(w, c, h, g);
      case AddGroup(c, h) => AddHandles(w, c, h, g);
      case Drop(h) => DropKeeps(w, h);
      case Hold(h) => HoldKeeps(w, h);
      case _ =>
    }
  }

  lemma ContextStays(w: World, e: Event, c: nat)
    requires Possible(w, e) && Next(w, e).Some? && c in w.contexts
    ensures c in Next(w, e).value.contexts
    ensures Next(w, e).value.contexts[c].live <==> w.contexts[c].live && e != FreeContext(c)
  {
  }

  /** `c` will free the group, or has done so. */
  predicate Owes(w: World, c: nat, g: nat) {
    && g in w.groups && c in w.contexts && w.groups[g].inContext
    && if w.contexts[c].live then w.groups[g].owner == Some(c) && w.groups[g].freed == 0
       else w.groups[g].owner.None? && w.groups[g].freed == 1
  }

  /** The group was handed over, but no context took it. */
  predicate Stranded(w: World, g: nat) {
    g in w.groups && w.groups[g].inContext && w.groups[g].freed == 0 && w.groups[g].owner.None?
  }

  lemma {:induction false} OwedIsFreed(w: World, c: nat, g: nat, es: seq<Event>)
    requires Sound(w) && Owes(w, c, g)
    ensures RunFrom(w, es).Some? && Owes(RunFrom(w, es).value, c, g)
    decreases |es|
  {
    RunsAreSound(w, es);
    if es != [] {
      var before, last := es[..|es| - 1], es[|es| - 1];
      RunsAreSound(w, before);
      OwedIsFreed(w, c, g, before);
      var now := RunFrom(w, before).value;
      if Possible(now, last) {
        NextHandles(now, last, g);
        ContextStays(now, last, c);
      }
    }
  }

  /** From any sound state on, whatever happens: a group that no context took is never freed, and neither
      its wrapper nor one with a leaked reference ever goes away. */
  lemma {:induction false} NeverFreed(w: World, g: nat, es: seq<Event>)
    requires Sound(w) && (Stranded(w, g) || (g in w.groups && w.groups[g].leaked > 0))
    ensures RunFrom(w, es).Some? && g in RunFrom(w, es).value.groups
    ensures RunFrom(w, es).value.groups[g].live
    ensures Stranded(w, g) ==> Stranded(RunFrom(w, es).value, g)
    ensures RunFrom(w, es).value.groups[g].leaked >= w.groups[g].leaked
    decreases |es|
  {
    RunsAreSound(w, es);
    assert GroupSound(w.groups[g]);
    if es != [] {
      var before, last := es[..|es| - 1], es[|es| - 1];
      RunsAreSound(w, before);
      NeverFreed(w, g, before);
      var now := RunFrom(w, before).value;
      assert GroupSound(now.groups[g]);
      if Possible(now, last) {
        NextHandles(now, last, g);
        assert GroupSound(Next(now, last).value.groups[g]);
      }
    }
  }

  /** A group handed to set_main_group is freed with that context exactly when the context had no main
      group before; otherwise it is never freed and its wrapper stays for ever. */
  lemma MainGroupIsFreedWhen(w: World, c: nat, g: nat, es: seq<Event>)
    requires Sound(w) && Possible(w, SetMainGroup(c, g)) && !w.groups[g].inContext
    ensures SetMain(w, c, g).Some? && RunFrom(SetMain(w, c, g).value, es).Some?
    ensures var end := RunFrom(SetMain(w, c, g).value, es).value;
            && g in end.groups && c in end.contexts
            && (end.groups[g].freed == 1 <==> w.contexts[c].gMain.None? && !end.contexts[c].live)
            && (w.contexts[c].gMain.Some? ==> end.groups[g].live)
  {
    SetMainKeeps(w, c, g);
    SetMainShape(w, c, g);
    assert GroupSound(w.groups[g]);
    var next := MainSet(w, c, g);
    if w.contexts[c].gMain.None? {
      OwedIsFreed(next, c, g, es);
    } else {
      NeverFreed(next, g, es);
      ContextsStay(next, c, es);
    }
  }

  lemma {:induction false} ContextsStay(w: World, c: nat, es: seq<Event>)
    requires Sound(w) && c in w.contexts
    ensures RunFrom(w, es).Some? && c in RunFrom(w, es).value.contexts
    decreases |es|
  {
    RunsAreSound(w, es);
    if es != [] {
      var before, last := es[..|es| - 1], es[|es| - 1];
      RunsAreSound(w, before);
      ContextsStay(w, c, before);
      if Possible(RunFrom(w, before).value, last) {
        NextKeepsSound(RunFrom(w, before).value, last);
        ContextStays(RunFrom(w, before).value, last, c);
      }
    }
  }

  /** A group handed to add_group is freed with that context exactly when its texts are complete; its
      wrapper stays for ever in any case. */
  lemma AddedGroupIsFreedWhen(w: World, c: nat, g: nat, es: seq<Event>)
    requires Sound(w) && Possible(w, AddGroup(c, g)) && !w.groups[g].inContext
    ensures Add(w, c, g).Some? && RunFrom(Add(w, c, g).value, es).Some?
    ensures var end := RunFrom(Add(w, c, g).value, es).value;
            && g in end.groups && c in end.contexts && end.groups[g].live
            && (end.groups[g].freed == 1 <==> w.groups[g].complete && !end.contexts[c].live)
  {
    AddKeeps(w, c, g);
    assert GroupSound(w.groups[g]);
    AddShape(w, c, g);
    var next := Add(w, c, g).value;
    NeverFreed(next, g, es);
    if w.groups[g].complete {
      OwedIsFreed(next, c, g, es);
    } else {
      ContextsStay(next, c, es);
    }
  }

  // ---------- a run that loses a group ----------

  lemma RunNext(w: World, es: seq<Event>, e: Event)
    ensures RunFrom(w, es + [e]) ==
            match RunFrom(w, es)
            case None => None
            case Some(now) => if Possible(now, e) then Next(now, e) else Some(now)
  {
    assert (es + [e])[..|es|] == es;
  }

  const BEGIN := [NewGroup(0, true)] + [NewGroup(1, true)] + [NewContext(0)]
  const SECOND_MAIN := BEGIN + [SetMainGroup(0, 0)] + [SetMainGroup(0, 1)] + [FreeContext(0)]

  lemma Begun()
    ensures After(BEGIN) == Some(World(map[0 := New(true), 1 := New(true)], map[0 := Context(true, None, None, [])]))
  {
    RunNext(EMPTY, [], NewGroup(0, true));
    assert [] + [NewGroup(0, true)] == [NewGroup(0, true)];
    RunNext(EMPTY, [NewGroup(0, true)], NewGroup(1, true));
    RunNext(EMPTY, [NewGroup(0, true)] + [NewGroup(1, true)], NewContext(0));
  }

  /** After the second set_main_group: no context owns group 1, and the reference of group 0 is forgotten. */
  lemma SecondMainSet()
    ensures After(BEGIN + [SetMainGroup(0, 0)] + [SetMainGroup(0, 1)]).Some?
    ensures var w := After(BEGIN + [SetMainGroup(0, 0)] + [SetMainGroup(0, 1)]).value;
            && Stranded(w, 1) && Owes(w, 0, 0) && w.groups[0].leaked == 1 && w.contexts[0].live
  {
    Begun();
    var w := After(BEGIN).value;
    SetMainShape(w, 0, 0);
    RunNext(EMPTY, BEGIN, SetMainGroup(0, 0));
    var w1 := MainSet(w, 0, 0);
    assert After(BEGIN + [SetMainGroup(0, 0)]) == Some(w1);
    SetMainShape(w1, 0, 1);
    RunNext(EMPTY, BEGIN + [SetMainGroup(0, 0)], SetMainGroup(0, 1));
  }

  /** Two main groups are set and the context is freed: from then on, whatever the program lets go of,
      the second GOptionGroup is never freed and neither wrapper ever goes away, the first because
      main_group was overwritten. */
  lemma SecondMainGroupIsLost(es: seq<Event>)
    ensures After(SECOND_MAIN).Some? && RunFrom(After(SECOND_MAIN).value, es).Some?
    ensures var w, end := After(SECOND_MAIN).value, RunFrom(After(SECOND_MAIN).value, es).value;
            && 0 in w.contexts && !w.contexts[0].live && 0 in w.groups && w.groups[0].freed == 1
            && 0 in end.groups && end.groups[0].live
            && 1 in end.groups && end.groups[1].live && end.groups[1].freed == 0
  {
    var handed := BEGIN + [SetMainGroup(0, 0)] + [SetMainGroup(0, 1)];
    SecondMainSet();
    RunsAreSound(EMPTY, handed);
    var w := After(handed).value;
    RunNext(EMPTY, handed, FreeContext(0));
    NextKeepsSound(w, FreeContext(0));
    NextHandles(w, FreeContext(0), 0);
    NextHandles(w, FreeContext(0), 1);
    ContextStays(w, FreeContext(0), 0);
    var freed := After(SECOND_MAIN).value;
    NeverFreed(freed, 0, es);
    NeverFreed(freed, 1, es);
  }

  // ---------- the functions as they update their objects ----------

  lemma DestroyAllNext(groups: map<nat, Group>, ids: seq<nat>, i: nat)
    requires AllSound(groups) && Distinct(ids) && i < |ids|
    requires forall g :: g in ids ==> g in groups && groups[g].owner.Some?
    requires DestroyAll(groups, ids[..i]).Some?
    ensures var done := DestroyAll(groups, ids[..i]).value;
            && ids[i] in done && done[ids[i]].live && Destroy(done[ids[i]]).Some?
            && DestroyAll(groups, ids[..i + 1]) == Some(done[ids[i] := Destroy(done[ids[i]]).value])
  {
    assert forall h :: h in ids[..i] ==> h in ids;
    DestroyAllKeeps(groups, ids[..i]);
    assert ids[i] in ids && ids[i] !in ids[..i];
    assert GroupSound(groups[ids[i]]);
    DestroyKeeps(groups[ids[i]]);
    assert ids[..i + 1][..i] == ids[..i];
  }

  lemma ForgetElsewhere(groups: map<nat, Group>, main: Option<nat>, g: nat, gr: Group, last: Group)
    requires g in groups && main != Some(g)
    ensures Forget(groups[g := gr], main)[g := last] == Forget(groups, main)[g := last]
  {
  }

  class OptionRuntime {
    var groups: map<nat, Group>
    var contexts: map<nat, Context>

    constructor ()
      ensures Now() == EMPTY && Sound(Now())
    {
      groups, contexts := map[], map[];
    }

    function Now(): World
      reads this
    {
      World(groups, contexts)
    }

    method NewOptionGroup(g: nat, complete: bool)
      requires g !in groups
      modifies `groups
      ensures groups == old(groups)[g := New(complete)]
    {
      groups := groups[g := Group(true, 1, true, true, false, complete, None, 0, 0, None, 1, 0)];
    }

    method DeallocGroup(g: nat)
      requires g in groups && groups[g].live
      modifies `groups
      ensures groups == old(groups)[g := Dealloc(old(groups[g]))]
    {
      if !groups[g].inContext {
        var tmp := groups[g].hasGroup;
        groups := groups[g := groups[g].(hasGroup := false)];
        if tmp {
          groups := groups[g := groups[g].(freed := groups[g].freed + 1, hasCallback := false)];
        }
      }
      groups := groups[g := groups[g].(live := false)];
    }

    method DecrefGroup(g: nat)
      requires g in groups && groups[g].live
      modifies `groups
      ensures g in groups && Some(groups[g]) == Decref(old(groups[g])) && groups == old(groups)[g := groups[g]]
    {
      groups := groups[g := groups[g].(count := groups[g].count - 1)];
      if groups[g].count == 0 {
        DeallocGroup(g);
      }
    }

    /** A reference that the program takes, and one that it drops. */
    method HoldGroup(g: nat)
      requires Possible(Now(), Hold(g)) && groups[g].live
      modifies `groups
      ensures Next(old(Now()), Hold(g)) == Some(Now())
    {
      groups := groups[g := groups[g].(count := groups[g].count + 1, outside := groups[g].outside + 1)];
    }

    method DropGroup(g: nat)
      requires Possible(Now(), Drop(g)) && groups[g].live
      modifies `groups
      ensures Next(old(Now()), Drop(g)) == Some(Now())
    {
      ghost var start := groups;
      groups := groups[g := groups[g].(outside := groups[g].outside - 1)];
      DecrefGroup(g);
      assert groups == start[g := groups[g]];
    }

    /** destroy_g_group, as the owning context frees the group. */
    method DestroyGroup(g: nat)
      requires g in groups && groups[g].live
      modifies `groups
      ensures g in groups && Some(groups[g]) == Destroy(old(groups[g])) && groups == old(groups)[g := groups[g]]
    {
      groups := groups[g := groups[g].(freed := groups[g].freed + 1, owner := None)];
      groups := groups[g := groups[g].(hasGroup := false)];
      groups := groups[g := groups[g].(hasCallback := false)];
      if groups[g].inContext {
        DecrefGroup(g);
      }
    }

    method TransferGroup(g: nat) returns (ok: bool)
      requires g in groups && groups[g].live
      modifies `groups
      ensures g in groups && Some((groups[g], ok)) == Transfer(old(groups[g])) && groups == old(groups)[g := groups[g]]
    {
      if groups[g].inContext {
        assert groups == groups[g := groups[g]];
        return false;
      }
      groups := groups[g := groups[g].(inContext := true)];
      groups := groups[g := groups[g].(count := groups[g].count + 1)];
      return true;
    }

    /** The flag is false for the RuntimeError of a group that is in a context; a main group is, in every
        sound world. */
    method SetMainGroup(c: nat, g: nat) returns (ok: bool)
      requires c in contexts && g in groups && groups[g].live
      requires contexts[c].mainGroup == Some(g) ==> groups[g].inContext
      modifies this
      ensures SetMain(old(Now()), c, g) == Some(Now()) && ok == !old(groups[g].inContext)
    {
      ghost var start := Now();
      ok := TransferGroup(g);
      if !ok {
        assert groups == start.groups;
        return;
      }
      TakeMain(c, g);
      ghost var taken := groups;
      assert taken == start.groups[g := taken[g]];
      HoldMain(c, g);
      SetMainShape(start, c, g);
      ForgetElsewhere(start.groups, start.contexts[c].mainGroup, g, taken[g], groups[g]);
      assert groups[g] == Moved(start.groups[g], c, start.contexts[c].gMain.None?, true);
      assert contexts == MainSet(start, c, g).contexts;
    }

    /** self->main_group = group, with a reference; the old one is not dropped. */
    method HoldMain(c: nat, g: nat)
      requires c in contexts && g in groups && contexts[c].mainGroup != Some(g)
      modifies this
      ensures contexts == old(contexts)[c := old(contexts[c]).(mainGroup := Some(g))]
      ensures groups == Forget(old(groups), old(contexts[c]).mainGroup)[
                g := old(groups[g]).(count := old(groups[g]).count + 1, heldBy := Some(c))]
    {
      groups := Forget(groups, contexts[c].mainGroup);
      groups := groups[g := groups[g].(count := groups[g].count + 1, heldBy := Some(c))];
      contexts := contexts[c := contexts[c].(mainGroup := Some(g))];
    }

    /** g_option_context_set_main_group: only the first main group is taken. */
    method TakeMain(c: nat, g: nat)
      requires c in contexts && g in groups
      modifies this
      ensures c in contexts && g in groups
      ensures var taken := old(contexts[c]).gMain.None?;
              && contexts == old(contexts)[
                   c := old(contexts[c]).(gMain := if taken then Some(g) else old(contexts[c]).gMain)]
              && groups == old(groups)[
                   g := if taken then old(groups[g]).(owner := Some(c), entered := old(groups[g]).entered + 1)
                        else old(groups[g])]
    {
      if contexts[c].gMain.None? {
        contexts := contexts[c := contexts[c].(gMain := Some(g))];
        groups := groups[g := groups[g].(owner := Some(c), entered := groups[g].entered + 1)];
      } else {
        assert contexts == contexts[c := contexts[c]] && groups == groups[g := groups[g]];
      }
    }

    method AddOptionGroup(c: nat, g: nat) returns (ok: bool)
      requires c in contexts && g in groups && groups[g].live
      modifies this
      ensures Add(old(Now()), c, g) == Some(Now()) && ok == !old(groups[g].inContext)
    {
      ghost var start := Now();
      ok := TransferGroup(g);
      if !ok {
        assert groups == start.groups;
        return;
      }
      groups := groups[g := groups[g].(count := groups[g].count + 1, leaked := groups[g].leaked + 1)];
      if groups[g].complete {
        groups := groups[g := groups[g].(owner := Some(c), entered := groups[g].entered + 1)];
        contexts := contexts[c := contexts[c].(gGroups := contexts[c].gGroups + [g])];
      }
      AddShape(start, c, g);
      assert groups == start.groups[g := Moved(start.groups[g], c, start.groups[g].complete, false)];
    }

    method DeallocOptionContext(c: nat)
      requires Sound(Now()) && c in contexts && contexts[c].live
      modifies this
      ensures DeallocContext(old(Now()), c) == Some(Now())
    {
      ghost var start := Now();
      var ctx := contexts[c];
      DropMainGroup(ctx.mainGroup, c);
      DropMainKeeps(start, c);
      assert ContextLinked(start, c);
      contexts := contexts[c := Context(false, None, None, [])];
      FreeGroups(Owned(ctx));
    }

    /** Py_CLEAR(self->main_group) */
    method DropMainGroup(main: Option<nat>, ghost c: nat)
      requires Sound(Now()) && c in contexts && contexts[c].mainGroup == main
      modifies `groups
      ensures DropMain(old(groups), main) == Some(groups)
    {
      if main.Some? {
        ghost var start := groups;
        var m := main.value;
        assert ContextLinked(Now(), c);
        assert GroupSound(groups[m]);
        groups := groups[m := groups[m].(heldBy := None)];
        DecrefGroup(m);
        assert groups == start[m := groups[m]];
      }
    }

    /** The groups a context owns, freed one after the other. */
    method FreeGroups(ids: seq<nat>)
      requires AllSound(groups) && Distinct(ids)
      requires forall g :: g in ids ==> g in groups && groups[g].owner.Some?
      modifies `groups
      ensures DestroyAll(old(groups), ids) == Some(groups)
    {
      ghost var start := groups;
      for i := 0 to |ids|
        invariant DestroyAll(start, ids[..i]) == Some(groups)
      {
        DestroyAllNext(start, ids, i);
        DestroyGroup(ids[i]);
      }
      assert ids[..|ids|] == ids;
    }

    /** One event of a program: it never runs into freed memory, and the ledger stays right. */
    method Do(e: Event)
      requires Sound(Now()) && Possible(Now(), e)
      modifies this
      ensures Next(old(Now()), e) == Some(Now()) && Sound(Now())
    {
      NextKeepsSound(Now(), e);
      match e {
        case NewGroup(g, complete) => NewOptionGroup(g, complete);
        case NewContext(c) => contexts := contexts[c := Context(true, None, None, [])];
        case Hold(g) => HoldGroup(g);
        case Drop(g) => DropGroup(g);
        case SetMainGroup(c, g) => var ok := SetMainGroup(c, g);
        case AddGroup(c, g) => var ok := AddOptionGroup(c, g);
        case FreeContext(c) => DeallocOptionContext(c);
      }
    }

    /** A whole program, from any sound state. */
    method Run(es: seq<Event>)
      requires Sound(Now())
      modifies this
      ensures RunFrom(old(Now()), es) == Some(Now()) && Sound(Now())
    {
      for i := 0 to |es|
        invariant Sound(Now()) && RunFrom(old(Now()), es[..i]) == Some(Now())
      {
        NextPrefix(es, i);
        if Possible(Now(), es[i]) {
          Do(es[i]);
        }
      }
      Whole(es);
    }
  }
}
