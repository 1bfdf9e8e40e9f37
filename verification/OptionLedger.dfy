/**
 What each event does to the ownership of option groups, said without reference counts and without the
 calls that lead to it: who holds a group, which context will free it, and how often it was freed.
 */
module OptionLedger {
  import opened Wrappers
  import opened OptionGroups

  /** A group as the ledger knows it. */
  datatype Stake = Stake(
    outside: nat, leaked: nat, heldBy: Option<nat>, owner: Option<nat>, entered: nat, freed: nat,
    inContext: bool, complete: bool)

  datatype View = View(stakes: map<nat, Stake>, contexts: map<nat, Context>)

  function StakeOf(gr: Group): Stake {
    Stake(gr.outside, gr.leaked, gr.heldBy, gr.owner, gr.entered, gr.freed, gr.inContext, gr.complete)
  }

  function Stakes(groups: map<nat, Group>): map<nat, Stake> {
    map g | g in groups :: StakeOf(groups[g])
  }

  function ViewOf(w: World): View {
    View(Stakes(w.groups), w.contexts)
  }

  // ---------- what should happen ----------

  /** One of the program's references is gone, and with the last one a group that no context was handed. */
  function GivenUp(s: Stake): Stake
    requires s.outside > 0
  {
    s.(outside := s.outside - 1, freed := if s.outside == 1 && !s.inContext then s.freed + 1 else s.freed)
  }

  /** Context `c` goes: it frees what it owns, and lets go of the group in its main_group. */
  function WithoutContext(s: Stake, c: nat): Stake {
    var freed := if s.owner == Some(c) then s.(owner := None, freed := s.freed + 1) else s;
    if s.heldBy == Some(c) then freed.(heldBy := None) else freed
  }

  /** Context `c` gets another main_group: the reference to this one is forgotten. */
  function Overwritten(s: Stake, c: nat): Stake {
    if s.heldBy == Some(c) then s.(heldBy := None, leaked := s.leaked + 1) else s
  }

  function TakenBy(s: Stake, c: nat): Stake {
    s.(owner := Some(c), entered := s.entered + 1)
  }

  predicate Fits(v: View, e: Event) {
    match e
    case NewGroup(_, _) => true
    case NewContext(_) => true
    case Hold(g) => g in v.stakes
    case Drop(g) => g in v.stakes && v.stakes[g].outside > 0
    case SetMainGroup(c, g) => c in v.contexts && g in v.stakes
    case AddGroup(c, g) => c in v.contexts && g in v.stakes
    case FreeContext(c) => c in v.contexts
  }

  function Effect(v: View, e: Event): View
    requires Fits(v, e)
  {
    match e
    case NewGroup(g, complete) => v.(stakes := v.stakes[g := Stake(1, 0, None, None, 0, 0, false, complete)])
    case NewContext(c) => v.(contexts := v.contexts[c := Context(true, None, None, [])])
    case Hold(g) => v.(stakes := v.stakes[g := v.stakes[g].(outside := v.stakes[g].outside + 1)])
    case Drop(g) => v.(stakes := v.stakes[g := GivenUp(v.stakes[g])])
    case SetMainGroup(c, g) =>
      if v.stakes[g].inContext then v else
      var held, ctx := v.stakes[g].(inContext := true, heldBy := Some(c)), v.contexts[c].(mainGroup := Some(g));
      var others := map h | h in v.stakes :: Overwritten(v.stakes[h], c);
      if ctx.gMain.Some? then View(others[g := held], v.contexts[c := ctx])
      else View(others[g := TakenBy(held, c)], v.contexts[c := ctx.(gMain := Some(g))])
    case AddGroup(c, g) =>
      if v.stakes[g].inContext then v else
      var s, ctx := v.stakes[g].(inContext := true, leaked := v.stakes[g].leaked + 1), v.contexts[c];
      if s.complete then
        View(v.stakes[g := TakenBy(s, c)], v.contexts[c := ctx.(gGroups := ctx.gGroups + [g])])
      else v.(stakes := v.stakes[g := s])
    case FreeContext(c) =>
      View(map h | h in v.stakes :: WithoutContext(v.stakes[h], c), v.contexts[c := Context(false, None, None, [])])
  }

  // ---------- single events ----------

  lemma StakesAfterSet(groups: map<nat, Group>, g: nat, gr: Group)
    ensures Stakes(groups[g := gr]) == Stakes(groups)[g := StakeOf(gr)]
  {
  }

  lemma HoldDoes(w: World, g: nat)
    requires Sound(w) && Possible(w, Hold(g))
    ensures Next(w, Hold(g)).Some? && ViewOf(Next(w, Hold(g)).value) == Effect(ViewOf(w), Hold(g))
  {
    assert GroupSound(w.groups[g]);
    StakesAfterSet(w.groups, g, w.groups[g].(count := w.groups[g].count + 1, outside := w.groups[g].outside + 1));
  }

  lemma DecrefIs(gr: Group)
    requires GroupSound(gr) && gr.outside > 0
    ensures var dropped := Decref(gr.(outside := gr.outside - 1));
            dropped.Some? && StakeOf(dropped.value) == GivenUp(StakeOf(gr))
  {
  }

  lemma DropDoes(w: World, g: nat)
    requires Sound(w) && Possible(w, Drop(g))
    ensures Next(w, Drop(g)).Some? && ViewOf(Next(w, Drop(g)).value) == Effect(ViewOf(w), Drop(g))
  {
    var gr := w.groups[g];
    DecrefIs(gr);
    var dropped := Decref(gr.(outside := gr.outside - 1));
    StakesAfterSet(w.groups, g, dropped.value);
  }

  lemma ForgetIs(w: World, c: nat)
    requires Sound(w) && c in w.contexts
    ensures Stakes(Forget(w.groups, w.contexts[c].mainGroup)) ==
            map h | h in Stakes(w.groups) :: Overwritten(Stakes(w.groups)[h], c)
  {
    assert ContextLinked(w, c);
    forall h | h in w.groups && w.groups[h].heldBy == Some(c)
      ensures w.contexts[c].mainGroup == Some(h)
    {
      assert GroupLinked(w, h);
    }
  }

  lemma SetMainDoes(w: World, c: nat, g: nat)
    requires Sound(w) && Possible(w, SetMainGroup(c, g))
    ensures Next(w, SetMainGroup(c, g)).Some?
    ensures ViewOf(Next(w, SetMainGroup(c, g)).value) == Effect(ViewOf(w), SetMainGroup(c, g))
  {
    assert GroupSound(w.groups[g]);
    if !w.groups[g].inContext {
      SetMainShape(w, c, g);
      ForgetIs(w, c);
      var ctx := w.contexts[c];
      StakesAfterSet(Forget(w.groups, ctx.mainGroup), g, Moved(w.groups[g], c, ctx.gMain.None?, true));
    }
  }

  lemma MovedIs(gr: Group, c: nat, taken: bool, main: bool)
    ensures StakeOf(Moved(gr, c, taken, main)) ==
            var s := StakeOf(gr).(inContext := true);
            var t := if main then s.(heldBy := Some(c)) else s.(leaked := s.leaked + 1);
            if taken then TakenBy(t, c) else t
  {
  }

  lemma AddDoes(w: World, c: nat, g: nat)
    requires Sound(w) && Possible(w, AddGroup(c, g))
    ensures Next(w, AddGroup(c, g)).Some?
    ensures ViewOf(Next(w, AddGroup(c, g)).value) == Effect(ViewOf(w), AddGroup(c, g))
  {
    var gr := w.groups[g];
    assert GroupSound(gr);
    if !gr.inContext {
      AddShape(w, c, g);
      MovedIs(gr, c, gr.complete, false);
      StakesAfterSet(w.groups, g, Moved(gr, c, gr.complete, false));
    }
  }

  lemma DestroyIs(gr: Group)
    requires GroupSound(gr) && gr.owner.Some?
    ensures Destroy(gr).Some? && StakeOf(Destroy(gr).value) == StakeOf(gr).(owner := None, freed := gr.freed + 1)
  {
  }

  lemma {:induction false} DestroyAllIs(groups: map<nat, Group>, ids: seq<nat>, g: nat)
    requires AllSound(groups) && Distinct(ids) && g in groups
    requires forall h :: h in ids ==> h in groups && groups[h].owner.Some?
    ensures DestroyAll(groups, ids).Some? && g in DestroyAll(groups, ids).value
    ensures StakeOf(DestroyAll(groups, ids).value[g]) ==
            if g in ids then StakeOf(groups[g]).(owner := None, freed := groups[g].freed + 1) else StakeOf(groups[g])
    decreases |ids|
  {
    DestroyAllKeeps(groups, ids);
    if ids != [] {
      var before, last := ids[..|ids| - 1], ids[|ids| - 1];
      assert last in ids && last !in before;
      assert forall h :: h in before ==> h in ids;
      DestroyAllKeeps(groups, before);
      DestroyAllIs(groups, before, g);
      DestroyIs(groups[last]);
      assert g in ids <==> g in before || g == last;
    }
  }

  lemma LetGoIs(gr: Group, c: nat)
    requires GroupSound(gr) && gr.heldBy == Some(c)
    ensures Decref(gr.(heldBy := None)).Some?
    ensures StakeOf(Decref(gr.(heldBy := None)).value) == StakeOf(gr).(heldBy := None)
  {
  }

  lemma DropMainIs(w: World, c: nat, g: nat)
    requires Sound(w) && c in w.contexts && g in w.groups
    ensures DropMain(w.groups, w.contexts[c].mainGroup).Some?
    ensures var groups := DropMain(w.groups, w.contexts[c].mainGroup).value;
            g in groups && StakeOf(groups[g]) ==
            if w.groups[g].heldBy == Some(c) then StakeOf(w.groups[g]).(heldBy := None) else StakeOf(w.groups[g])
  {
    assert ContextLinked(w, c) && GroupLinked(w, g);
    var main := w.contexts[c].mainGroup;
    if main.Some? {
      LetGoIs(w.groups[main.value], c);
    }
  }

  lemma FreeContextIs(w: World, c: nat, g: nat)
    requires Sound(w) && Possible(w, FreeContext(c)) && g in w.groups
    ensures DeallocContext(w, c).Some? && g in DeallocContext(w, c).value.groups
    ensures StakeOf(DeallocContext(w, c).value.groups[g]) == WithoutContext(StakeOf(w.groups[g]), c)
  {
    DropMainKeeps(w, c);
    DropMainIs(w, c, g);
    assert ContextLinked(w, c) && GroupLinked(w, g);
    var groups := DropMain(w.groups, w.contexts[c].mainGroup).value;
    DestroyAllIs(groups, Owned(w.contexts[c]), g);
  }

  lemma FreedGroups(w: World, c: nat)
    requires Sound(w) && Possible(w, FreeContext(c))
    ensures DeallocContext(w, c).Some? && DeallocContext(w, c).value.groups.Keys == w.groups.Keys
    ensures DeallocContext(w, c).value.contexts == w.contexts[c := Context(false, None, None, [])]
  {
    DropMainKeeps(w, c);
    assert ContextLinked(w, c);
    DestroyAllKeeps(DropMain(w.groups, w.contexts[c].mainGroup).value, Owned(w.contexts[c]));
  }

  lemma StakesWithout(groups: map<nat, Group>, next: map<nat, Group>, c: nat)
    requires next.Keys == groups.Keys
    requires forall g :: g in groups ==> StakeOf(next[g]) == WithoutContext(StakeOf(groups[g]), c)
    ensures Stakes(next) == map h | h in Stakes(groups) :: WithoutContext(Stakes(groups)[h], c)
  {
  }

  lemma FreeContextDoes(w: World, c: nat)
    requires Sound(w) && Possible(w, FreeContext(c))
    ensures DeallocContext(w, c).Some? && ViewOf(DeallocContext(w, c).value) == Effect(ViewOf(w), FreeContext(c))
  {
    FreedGroups(w, c);
    var next := DeallocContext(w, c).value;
    forall g | g in w.groups
      ensures StakeOf(next.groups[g]) == WithoutContext(StakeOf(w.groups[g]), c)
    {
      FreeContextIs(w, c, g);
    }
    StakesWithout(w.groups, next.groups, c);
  }

  /** Every possible event succeeds and does to the ledger exactly what it should, and the wrappers that
      live are those that something refers to. */
  lemma EventsDo(w: World, e: Event)
    requires Sound(w) && Possible(w, e)
    ensures Fits(ViewOf(w), e) && Next(w, e).Some? && ViewOf(Next(w, e).value) == Effect(ViewOf(w), e)
    ensures forall g :: g in Next(w, e).value.groups ==>
              var gr := Next(w, e).value.groups[g];
              && (gr.live <==> Ledger(gr) > 0) && (gr.live ==> gr.count == Ledger(gr))
              && (gr.hasGroup <==> gr.freed == 0) && (gr.hasCallback <==> gr.freed == 0)
  {
    match e {
      case NewGroup(g, complete) => StakesAfterSet(w.groups, g, New(complete));
      case NewContext(c) =>
      case Hold(g) => HoldDoes(w, g);
      case Drop(g) => DropDoes(w, g);
      case SetMainGroup(c, g) => SetMainDoes(w, c, g);
      case AddGroup(c, g) => AddDoes(w, c, g);
      case FreeContext(c) => FreeContextDoes(w, c);
    }
    NextKeepsSound(w, e);
    SoundGroups(Next(w, e).value);
  }

  lemma SoundGroups(w: World)
    requires Sound(w)
    ensures forall g :: g in w.groups ==>
              var gr := w.groups[g];
              && (gr.live <==> Ledger(gr) > 0) && (gr.live ==> gr.count == Ledger(gr))
              && (gr.hasGroup <==> gr.freed == 0) && (gr.hasCallback <==> gr.freed == 0)
  {
    forall g | g in w.groups
      ensures GroupSound(w.groups[g])
    {
    }
  }
}
