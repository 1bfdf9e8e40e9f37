/**
 The loops that put parent classes before their children (codegen/codegen.py, codegen/h2def.py and
 codegen/docgen.py).  They move one class at a time within the list until nothing is out of order;
 that they stop at all is the point.
 */
module ClassOrder {
  import opened Sequences
  import opened Wrappers

  /** The part of an ObjectDef the ordering looks at. */
  datatype ClassDef = ClassDef(name: string, parent: Option<string>)

  const GOBJECT := "GObject"

  predicate DistinctNames(classes: seq<ClassDef>) {
    forall i, j :: 0 <= i < j < |classes| ==> classes[i].name != classes[j].name
  }

  predicate IsParent(p: ClassDef, c: ClassDef) {
    c.parent == Some(p.name)
  }

  /** No class stands before its parent. */
  predicate ParentsFirst(classes: seq<ClassDef>) {
    forall i, j :: 0 <= i < j < |classes| ==> !IsParent(classes[j], classes[i])
  }

  /** `rank` grows from parent to child, so that no class is among its own ancestors.  A class that
      names itself as its parent is harmless: the loops never compare a class with itself. */
  ghost predicate Ranks(classes: seq<ClassDef>, rank: map<string, nat>) {
    && (forall c :: c in classes ==> c.name in rank)
    && (forall c, p :: c in classes && p in classes && p != c && IsParent(p, c) ==> rank[p.name] < rank[c.name])
  }

  ghost predicate Acyclic(classes: seq<ClassDef>) {
    exists rank :: Ranks(classes, rank)
  }

  // ---------- a list that can be ordered at all is acyclic ----------

  function IndexOf(classes: seq<ClassDef>, name: string): (i: nat)
    ensures i <= |classes|
    ensures i < |classes| ==> classes[i].name == name
    ensures forall k :: 0 <= k < i ==> classes[k].name != name
  {
    if classes == [] || classes[0].name == name then 0 else 1 + IndexOf(classes[1..], name)
  }

  lemma IndexOfElement(classes: seq<ClassDef>, i: nat)
    requires DistinctNames(classes) && i < |classes|
    ensures IndexOf(classes, classes[i].name) == i
  {
  }

  lemma PermutedMembers(a: seq<ClassDef>, b: seq<ClassDef>)
    requires multiset(a) == multiset(b)
    ensures |a| == |b|
    ensures forall c :: c in a <==> c in b
  {
    assert |multiset(a)| == |multiset(b)|;
    assert forall c :: c in a <==> c in multiset(a);
    assert forall c :: c in b <==> c in multiset(b);
  }

  /** No order of a cyclic hierarchy has the parents first: the loops cannot stop on one. */
  lemma OrderedMeansAcyclic(classes: seq<ClassDef>, ordered: seq<ClassDef>)
    requires DistinctNames(ordered) && multiset(ordered) == multiset(classes) && ParentsFirst(ordered)
    ensures Acyclic(classes)
  {
    PermutedMembers(ordered, classes);
    var names := set i | 0 <= i < |ordered| :: ordered[i].name;
    var rank := map name | name in names :: IndexOf(ordered, name);
    forall c, p | c in classes && p in classes && p != c && IsParent(p, c)
      ensures rank[p.name] < rank[c.name]
    {
      ParentHasLowerIndex(ordered, c, p);
    }
    assert Ranks(classes, rank);
  }

  lemma ParentHasLowerIndex(ordered: seq<ClassDef>, c: ClassDef, p: ClassDef)
    requires DistinctNames(ordered) && ParentsFirst(ordered)
    requires c in ordered && p in ordered && p != c && IsParent(p, c)
    ensures IndexOf(ordered, p.name) < IndexOf(ordered, c.name)
  {
    var i :| 0 <= i < |ordered| && ordered[i] == c;
    var j :| 0 <= j < |ordered| && ordered[j] == p;
    IndexOfElement(ordered, i);
    IndexOfElement(ordered, j);
  }

  // ---------- move a class behind its parent ----------

  /** objects.insert(i + 1, objects[pos]); del objects[pos] */
  function MoveBehind(s: seq<ClassDef>, pos: nat, i: nat): seq<ClassDef>
    requires pos < i < |s|
  {
    s[..pos] + s[pos + 1..i + 1] + [s[pos]] + s[i + 1..]
  }

  function NewIndex(pos: nat, i: nat, k: nat): nat
    requires pos < i
  {
    if k == pos then i else if pos < k <= i then k - 1 else k
  }

  lemma MovedIndices(s: seq<ClassDef>, pos: nat, i: nat)
    requires pos < i < |s|
    ensures var t := MoveBehind(s, pos, i);
            && |t| == |s|
            && (forall k {:trigger t[k]} :: 0 <= k < |s| ==> t[k] == s[OldIndex(pos, i, k)])
  {
  }

  /** `t` is `s` with the class at `pos` moved behind its parent at `i`. */
  ghost predicate Moved(s: seq<ClassDef>, t: seq<ClassDef>, pos: nat, i: nat) {
    && pos < i < |s| == |t| && IsParent(s[i], s[pos])
    && DistinctNames(s) && DistinctNames(t)
    && (forall k {:trigger t[k]} :: 0 <= k < |s| ==> t[k] == s[OldIndex(pos, i, k)])
  }

  lemma MoveBehindMoves(s: seq<ClassDef>, pos: nat, i: nat)
    requires DistinctNames(s) && pos < i < |s| && IsParent(s[i], s[pos])
    ensures Moved(s, MoveBehind(s, pos, i), pos, i)
    ensures multiset(MoveBehind(s, pos, i)) == multiset(s)
  {
    var t := MoveBehind(s, pos, i);
    MovedIndices(s, pos, i);
    MovedMultiset(s, pos, i);
    forall a, b | 0 <= a < b < |t|
      ensures t[a].name != t[b].name
    {
      assert t[a] == s[OldIndex(pos, i, a)] && t[b] == s[OldIndex(pos, i, b)];
    }
  }

  function OldIndex(pos: nat, i: nat, k: nat): nat
    requires pos < i
  {
    if k == i then pos else if pos <= k < i then k + 1 else k
  }

  // ---------- the measure: inverted edges on ancestor chains ----------

  /** Where the parent of `c` stands, or |s| when it is not listed (or is `c` itself). */
  function ParentIndex(s: seq<ClassDef>, c: ClassDef): (i: nat)
    ensures i <= |s|
    ensures i < |s| ==> IsParent(s[i], c) && s[i] != c
  {
    if c.parent.Some? && c.parent.value != c.name then IndexOf(s, c.parent.value) else |s|
  }

  /** How many classes on the ancestor chain of `c` stand before their parent. */
  ghost function Inversions(s: seq<ClassDef>, rank: map<string, nat>, c: ClassDef): nat
    requires Ranks(s, rank) && c in s
    decreases rank[c.name]
  {
    var p := ParentIndex(s, c);
    if p == |s| then 0
    else (if p > IndexOf(s, c.name) then 1 else 0) + Inversions(s, rank, s[p])
  }

  lemma RanksSurvive(s: seq<ClassDef>, t: seq<ClassDef>, rank: map<string, nat>)
    requires Ranks(s, rank) && multiset(t) == multiset(s)
    ensures Ranks(t, rank)
  {
    PermutedMembers(s, t);
  }

  /** Where a class and its parent stand before and after the move. */
  lemma PositionsAfterMove(s: seq<ClassDef>, t: seq<ClassDef>, pos: nat, i: nat, c: ClassDef) returns (k: nat, p: nat)
    requires Moved(s, t, pos, i) && c in s
    ensures k < |s| && s[k] == c && IndexOf(s, c.name) == k && IndexOf(t, c.name) == NewIndex(pos, i, k)
    ensures p == ParentIndex(s, c) && ParentIndex(t, c) == if p < |s| then NewIndex(pos, i, p) else |s|
    ensures |t| == |s| && (p < |s| ==> t[NewIndex(pos, i, p)] == s[p] && s[p] in t)
    ensures k == pos ==> p == i
  {
    k :| 0 <= k < |s| && s[k] == c;
    IndexOfElement(s, k);
    assert t[NewIndex(pos, i, k)] == s[k];
    IndexOfElement(t, NewIndex(pos, i, k));
    p := ParentIndex(s, c);
    ParentIndexAfterMove(s, t, pos, i, c);
    if k == pos {
      IndexOfElement(s, i);
      assert s[pos].name != s[i].name;
    }
  }

  /** Moving a class behind its parent mends one edge on its own chain and on the chains that pass
      through it; an edge it breaks belongs to a child whose chain was mended too. */
  lemma {:induction false} InversionsAfterMove(s: seq<ClassDef>, t: seq<ClassDef>, rank: map<string, nat>, pos: nat,
                                               i: nat, c: ClassDef)
    requires Moved(s, t, pos, i) && Ranks(s, rank) && Ranks(t, rank) && c in s && c in t
    ensures Inversions(t, rank, c) <= Inversions(s, rank, c)
    ensures c == s[pos] ==> Inversions(t, rank, c) < Inversions(s, rank, c)
    decreases rank[c.name]
  {
    var k, p := PositionsAfterMove(s, t, pos, i, c);
    if p < |s| {
      InversionsAfterMove(s, t, rank, pos, i, s[p]);
    }
  }

  lemma ParentIndexAfterMove(s: seq<ClassDef>, t: seq<ClassDef>, pos: nat, i: nat, c: ClassDef)
    requires Moved(s, t, pos, i)
    ensures var p := ParentIndex(s, c);
            ParentIndex(t, c) == if p < |s| then NewIndex(pos, i, p) else |s|
    ensures ParentIndex(s, c) < |s| ==> s[ParentIndex(s, c)] in t
  {
    var p := ParentIndex(s, c);
    if p < |s| {
      assert t[NewIndex(pos, i, p)] == s[p];
      IndexOfElement(t, NewIndex(pos, i, p));
    } else if c.parent.Some? && c.parent.value != c.name {
      forall k | 0 <= k < |t|
        ensures t[k].name != c.parent.value
      {
        assert t[k] == s[OldIndex(pos, i, k)];
      }
    }
  }

  ghost function TotalInversions(s: seq<ClassDef>, rank: map<string, nat>, all: seq<ClassDef>): nat
    requires Ranks(s, rank) && forall c :: c in all ==> c in s
  {
    if all == [] then 0 else Inversions(s, rank, all[0]) + TotalInversions(s, rank, all[1..])
  }

  lemma {:induction false} TotalAfterMove(s: seq<ClassDef>, t: seq<ClassDef>, rank: map<string, nat>, pos: nat, i: nat,
                                          all: seq<ClassDef>)
    requires Moved(s, t, pos, i) && Ranks(s, rank) && Ranks(t, rank)
    requires forall c :: c in all ==> c in s && c in t
    ensures TotalInversions(t, rank, all) <= TotalInversions(s, rank, all)
    ensures s[pos] in all ==> TotalInversions(t, rank, all) < TotalInversions(s, rank, all)
  {
    if all != [] {
      InversionsAfterMove(s, t, rank, pos, i, all[0]);
      TotalAfterMove(s, t, rank, pos, i, all[1..]);
    }
  }

  /** The loop shared by SourceWriter.get_classes, sort_obj_defs and build_object_tree. */
  method MoveBehindParents(classes: seq<ClassDef>) returns (objects: seq<ClassDef>)
    requires DistinctNames(classes) && Acyclic(classes)
    ensures multiset(objects) == multiset(classes) && DistinctNames(objects)
    ensures ParentsFirst(objects)
  {
    objects := classes;
    ghost var rank :| Ranks(classes, rank);
    var pos := 0;
    while pos < |objects|
      invariant pos <= |objects| && multiset(objects) == multiset(classes) && DistinctNames(objects)
      invariant Ranks(objects, rank) && forall c :: c in classes ==> c in objects
      invariant Settled(objects, pos)
      decreases |objects| - pos, TotalInversions(objects, rank, classes)
    {
      var parent := objects[pos].parent;
      var i := pos + 1;
      while i < |objects| && Some(objects[i].name) != parent
        invariant pos < i <= |objects|
        invariant forall b :: pos < b < i ==> !IsParent(objects[b], objects[pos])
      {
        i := i + 1;
      }
      if i < |objects| {
        ghost var before := objects;
        objects := objects[..i + 1] + [objects[pos]] + objects[i + 1..];
        objects := objects[..pos] + objects[pos + 1..];
        MoveKeepsInvariant(before, objects, pos, i, classes, rank);
      } else {
        pos := pos + 1;
      }
    }
  }

  lemma MoveKeepsInvariant(s: seq<ClassDef>, t: seq<ClassDef>, pos: nat, i: nat, classes: seq<ClassDef>,
                           rank: map<string, nat>)
    requires DistinctNames(s) && Ranks(s, rank) && pos < i < |s| && IsParent(s[i], s[pos]) && Settled(s, pos)
    requires multiset(s) == multiset(classes) && forall c :: c in classes ==> c in s
    requires var u := s[..i + 1] + [s[pos]] + s[i + 1..]; t == u[..pos] + u[pos + 1..]
    ensures |t| == |s| && multiset(t) == multiset(classes) && DistinctNames(t) && Settled(t, pos)
    ensures Ranks(t, rank) && forall c :: c in classes ==> c in t
    ensures TotalInversions(t, rank, classes) < TotalInversions(s, rank, classes)
  {
    InsertThenDelete(s, pos, i);
    MoveBehindMoves(s, pos, i);
    SameMembers(t, classes);
    RanksSurvive(s, t, rank);
    TotalAfterMove(s, t, rank, pos, i, classes);
    TotalOfMoved(s, pos, classes);
    SettledSurvives(s, t, pos, i);
  }

  lemma SameMembers(a: seq<ClassDef>, b: seq<ClassDef>)
    requires multiset(a) == multiset(b)
    ensures forall c :: c in b ==> c in a
  {
    PermutedMembers(a, b);
  }

  lemma TotalOfMoved(s: seq<ClassDef>, pos: nat, classes: seq<ClassDef>)
    requires pos < |s| && multiset(s) == multiset(classes)
    ensures s[pos] in classes
  {
    PermutedMembers(s, classes);
    assert s[pos] in s;
  }

  lemma SettledSurvives(s: seq<ClassDef>, t: seq<ClassDef>, pos: nat, i: nat)
    requires Moved(s, t, pos, i) && Settled(s, pos)
    ensures Settled(t, pos)
  {
    forall a, b | 0 <= a < pos && a < b < |t|
      ensures !IsParent(t[b], t[a])
    {
      assert t[a] == s[a] && t[b] == s[OldIndex(pos, i, b)];
    }
  }

  /** None of the first `pos` classes stands before its parent. */
  predicate Settled(s: seq<ClassDef>, pos: nat)
    requires pos <= |s|
  {
    forall a, b :: 0 <= a < pos && a < b < |s| ==> !IsParent(s[b], s[a])
  }

  // ---------- _sort_parent_children: pull a parent in front of its child ----------

  /** Must `p` stand before `c`?  The loop takes a class whose parent is GObject to be in place. */
  predicate Precedes(p: ClassDef, c: ClassDef) {
    IsParent(p, c) && p.name != GOBJECT
  }

  predicate InPlace(s: seq<ClassDef>, i: nat)
    requires i < |s|
  {
    forall j :: i < j < |s| ==> !Precedes(s[j], s[i])
  }

  ghost predicate RanksListed(s: seq<ClassDef>, rank: map<string, nat>) {
    && (forall c :: c in s ==> c.name in rank)
    && (forall c, p :: c in s && p in s && p != c && Precedes(p, c) ==> rank[p.name] < rank[c.name])
  }

  /** objects.insert(i, objects.pop(j)) */
  function PullBefore(s: seq<ClassDef>, i: nat, j: nat): seq<ClassDef>
    requires i < j < |s|
  {
    s[..i] + [s[j]] + s[i..j] + s[j + 1..]
  }

  /** The first class that stands before its parent, or |s|. */
  function FirstMisplaced(s: seq<ClassDef>): (v: nat)
    ensures v <= |s|
    ensures v < |s| ==> !InPlace(s, v)
    ensures forall i :: 0 <= i < v ==> InPlace(s, i)
  {
    MisplacedFrom(s, 0)
  }

  function MisplacedFrom(s: seq<ClassDef>, i: nat): (v: nat)
    requires i <= |s|
    ensures i <= v <= |s|
    ensures v < |s| ==> !InPlace(s, v)
    ensures forall k :: i <= k < v ==> InPlace(s, k)
    decreases |s| - i
  {
    if i == |s| || !InPlace(s, i) then i else MisplacedFrom(s, i + 1)
  }

  ghost function RankAt(s: seq<ClassDef>, rank: map<string, nat>, v: nat): nat
    requires RanksListed(s, rank)
  {
    if v < |s| then rank[s[v].name] else 0
  }

  lemma PulledElements(s: seq<ClassDef>, i: nat, j: nat)
    requires i < j < |s|
    ensures var t := PullBefore(s, i, j);
            && multiset(t) == multiset(s) && |t| == |s|
            && forall k {:trigger t[k]} :: 0 <= k < |t| ==> t[k] == s[PulledFrom(i, j, k)]
  {
    PulledMultiset(s, i, j);
  }

  lemma PulledMultiset(s: seq<ClassDef>, i: nat, j: nat)
    requires i < j < |s|
    ensures multiset(PullBefore(s, i, j)) == multiset(s)
  {
    var a, m, b := s[..i], s[i..j], s[j + 1..];
    assert s == a + (m + ([s[j]] + b));
    assert PullBefore(s, i, j) == a + ([s[j]] + (m + b));
  }

  /** One round: what was in place stays in place, and the class now at `i` has a lower rank. */
  lemma PullKeeps(s: seq<ClassDef>, i: nat, j: nat, rank: map<string, nat>)
    requires DistinctNames(s) && RanksListed(s, rank)
    requires i < j < |s| && Precedes(s[j], s[i]) && forall k :: 0 <= k < i ==> InPlace(s, k)
    ensures var t := PullBefore(s, i, j);
            && DistinctNames(t) && RanksListed(t, rank)
            && FirstMisplaced(t) >= i == FirstMisplaced(s)
            && (FirstMisplaced(t) == i ==> RankAt(t, rank, i) < RankAt(s, rank, i))
  {
    var t := PullBefore(s, i, j);
    PulledElements(s, i, j);
    PermutedMembers(s, t);
    PulledStayDistinct(s, t, i, j);
    PulledStayInPlace(s, t, i, j);
    assert !InPlace(s, i);
    assert t[i] == s[j] && s[i].name != s[j].name;
    assert RanksListed(t, rank);
  }

  lemma PulledStayDistinct(s: seq<ClassDef>, t: seq<ClassDef>, i: nat, j: nat)
    requires DistinctNames(s) && i < j < |s| == |t|
    requires forall k {:trigger t[k]} :: 0 <= k < |t| ==> t[k] == s[PulledFrom(i, j, k)]
    ensures DistinctNames(t)
  {
    forall a, b | 0 <= a < b < |t|
      ensures t[a].name != t[b].name
    {
      assert t[a] == s[PulledFrom(i, j, a)] && t[b] == s[PulledFrom(i, j, b)];
    }
  }

  lemma PulledStayInPlace(s: seq<ClassDef>, t: seq<ClassDef>, i: nat, j: nat)
    requires i < j < |s| == |t| && forall k :: 0 <= k < i ==> InPlace(s, k)
    requires forall k {:trigger t[k]} :: 0 <= k < |t| ==> t[k] == s[PulledFrom(i, j, k)]
    ensures forall k :: 0 <= k < i ==> InPlace(t, k)
  {
    forall k, b | 0 <= k < i && k < b < |t|
      ensures !Precedes(t[b], t[k])
    {
      assert InPlace(s, k);
      assert t[k] == s[k] && t[b] == s[PulledFrom(i, j, b)];
    }
  }

  function PulledFrom(i: nat, j: nat, k: nat): nat
    requires i < j
  {
    if k == i then j else if i < k <= j then k - 1 else k
  }

  /** The two nested for loops: the first class whose parent is listed behind it, and that parent. */
  method FindMisplaced(s: seq<ClassDef>) returns (found: Option<(nat, nat)>)
    requires DistinctNames(s)
    ensures found.None? ==> FirstMisplaced(s) == |s|
    ensures found.Some? ==> var (i, j) := found.value;
              i < j < |s| && Precedes(s[j], s[i]) && forall k :: 0 <= k < i ==> InPlace(s, k)
  {
    for i := 0 to |s|
      invariant forall k :: 0 <= k < i ==> InPlace(s, k)
    {
      var parent := s[i].parent;
      if parent != Some(GOBJECT) && !(exists k :: 0 <= k < i && Some(s[k].name) == parent) {
        for j := i + 1 to |s|
          invariant forall k :: i < k < j ==> !Precedes(s[k], s[i])
        {
          if Some(s[j].name) == parent {
            return Some((i, j));
          }
        }
      }
    }
    return None;
  }

  method SortParentChildren(classes: seq<ClassDef>) returns (objects: seq<ClassDef>)
    requires DistinctNames(classes) && exists rank :: RanksListed(classes, rank)
    ensures multiset(objects) == multiset(classes)
    ensures forall i :: 0 <= i < |objects| ==> InPlace(objects, i)
    ensures (forall c :: c in classes ==> c.name != GOBJECT) ==> ParentsFirst(objects)
  {
    objects := classes;
    ghost var rank :| RanksListed(classes, rank);
    var modified := true;
    while modified
      invariant multiset(objects) == multiset(classes)
      invariant DistinctNames(objects) && RanksListed(objects, rank)
      invariant !modified ==> FirstMisplaced(objects) == |objects|
      decreases |objects| - FirstMisplaced(objects), RankAt(objects, rank, FirstMisplaced(objects)), modified
    {
      modified := false;
      var found := FindMisplaced(objects);
      if found.Some? {
        var (child, parent) := found.value;
        PullKeeps(objects, child, parent, rank);
        PulledElements(objects, child, parent);
        objects := objects[..child] + [objects[parent]] + objects[child..parent] + objects[parent + 1..];
        modified := true;
      }
    }
    WithoutGObject(classes, objects);
  }

  lemma WithoutGObject(classes: seq<ClassDef>, objects: seq<ClassDef>)
    requires multiset(objects) == multiset(classes) && forall i :: 0 <= i < |objects| ==> InPlace(objects, i)
    ensures (forall c :: c in classes ==> c.name != GOBJECT) ==> ParentsFirst(objects)
  {
    PermutedMembers(objects, classes);
    forall i, j | 0 <= i < j < |objects|
      ensures !IsParent(objects[j], objects[i]) || objects[j].name == GOBJECT
    {
      assert InPlace(objects, i);
    }
    assert forall j :: 0 <= j < |objects| ==> objects[j] in classes;
  }
}
