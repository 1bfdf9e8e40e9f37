/** The class tree of codegen/docgen.py: nodes are made in list order and hung under the node that a
    dictionary gives for the parent's name. */
module ObjectTree {
  import opened Sequences
  import opened Wrappers
  import opened ClassOrder

  class Node {
    const name: Option<string>
    var subclasses: seq<Node>

    constructor (name: Option<string>)
      ensures this.name == name && subclasses == []
    {
      this.name := name;
      subclasses := [];
    }

    method AddChild(node: Node)
      modifies this
      ensures subclasses == old(subclasses) + [node]
    {
      subclasses := subclasses + [node];
    }
  }

  datatype KeyError = KeyError(parent: string)

  /** The key under which the parent's node is looked up: None is the root. */
  function Anchor(c: ClassDef): Option<string> {
    if c.parent == Some(GOBJECT) then None else c.parent
  }

  predicate Listed(classes: seq<ClassDef>, name: string) {
    exists i :: 0 <= i < |classes| && classes[i].name == name
  }

  /** The parent of `c` is the root or another listed class. */
  predicate Anchored(classes: seq<ClassDef>, c: ClassDef) {
    Anchor(c).None? || (Anchor(c).value != c.name && Listed(classes, Anchor(c).value))
  }

  predicate AllAnchored(classes: seq<ClassDef>, some: seq<ClassDef>) {
    forall c :: c in some ==> Anchored(classes, c)
  }

  /** The names of the classes directly under `key`, in list order. */
  function ChildNames(classes: seq<ClassDef>, key: Option<string>): seq<Option<string>> {
    if classes == [] then [] else
    var c := classes[|classes| - 1];
    ChildNames(classes[..|classes| - 1], key) + if Anchor(c) == key then [Some(c.name)] else []
  }

  function Names(nodes: seq<Node>): seq<Option<string>> {
    seq(|nodes|, i requires 0 <= i < |nodes| => nodes[i].name)
  }

  function Keys(classes: seq<ClassDef>): set<Option<string>> {
    {None} + set i | 0 <= i < |classes| :: Some(classes[i].name)
  }

  /** The node under `key` has that name, and lists the nodes of the classes directly under it. */
  ghost predicate IsNode(nodes: map<Option<string>, Node>, key: Option<string>, classes: seq<ClassDef>)
    requires key in nodes
    reads nodes.Values
  {
    var node := nodes[key];
    && node.name == key && Names(node.subclasses) == ChildNames(classes, key)
    && forall child :: child in node.subclasses ==> child.name in nodes && nodes[child.name] == child
  }

  /** Every class has one node, and each node lists the nodes of the classes directly under it. */
  ghost predicate IsTree(nodes: map<Option<string>, Node>, classes: seq<ClassDef>)
    reads nodes.Values
  {
    nodes.Keys == Keys(classes) && forall key :: key in nodes ==> IsNode(nodes, key, classes)
  }

  method BuildObjectTree(classes: seq<ClassDef>)
      returns (r: Result<Node, KeyError>, ghost nodes: map<Option<string>, Node>, ghost order: seq<ClassDef>)
    requires DistinctNames(classes) && Acyclic(classes)
    ensures multiset(order) == multiset(classes) && ParentsFirst(order) && DistinctNames(order)
    ensures r.Ok? <==> forall c :: c in classes ==> Anchored(classes, c)
    ensures r.Ok? ==> IsTree(nodes, order) && r.value == nodes[None]
  {
    var objects := MoveBehindParents(classes);
    order := objects;
    PermutedMembers(objects, classes);
    SameListed(objects, classes);
    r, nodes := HangAll(objects);
    assert AllAnchored(objects, objects) <==> forall c :: c in classes ==> Anchored(classes, c);
  }

  /** The second loop of build_object_tree. */
  method HangAll(objects: seq<ClassDef>) returns (r: Result<Node, KeyError>, ghost nodes: map<Option<string>, Node>)
    requires DistinctNames(objects) && ParentsFirst(objects)
    ensures r.Ok? <==> AllAnchored(objects, objects)
    ensures r.Ok? ==> IsTree(nodes, objects) && r.value == nodes[None]
  {
    var root := new Node(None);
    var found: map<Option<string>, Node> := map[None := root];
    nodes := found;
    for k := 0 to |objects|
      invariant fresh(found.Values) && IsTree(found, objects[..k]) && found[None] == root
      invariant AllAnchored(objects, objects[..k])
    {
      var ok, grown := HangNext(found, objects[k], objects, k);
      if !ok {
        return Err(KeyError(objects[k].parent.value)), found;
      }
      found := grown;
    }
    Whole(objects);
    r, nodes := Ok(root), found;
  }

  /** One round: the lookup fails exactly when the class is not anchored. */
  method HangNext(found: map<Option<string>, Node>, c: ClassDef, ghost objects: seq<ClassDef>, ghost k: nat)
      returns (ok: bool, grown: map<Option<string>, Node>)
    requires DistinctNames(objects) && ParentsFirst(objects) && k < |objects| && c == objects[k]
    requires IsTree(found, objects[..k]) && AllAnchored(objects, objects[..k])
    modifies found.Values
    ensures fresh(grown.Values - found.Values)
    ensures ok ==>
              && IsTree(grown, objects[..k + 1]) && grown[None] == found[None]
              && AllAnchored(objects, objects[..k + 1])
    ensures !ok ==> c.parent.Some? && !AllAnchored(objects, objects)
  {
    var parentName := c.parent;
    if parentName == Some(GOBJECT) {
      parentName := None;
    }
    NextHangs(objects, k);
    if parentName !in found {
      return false, found;
    }
    assert found[parentName] in found.Values;
    ok := true;
    grown := Hang(found, objects[..k], c);
  }

  /** What one round of the loop has to know of the class at `k`. */
  lemma NextHangs(objects: seq<ClassDef>, k: nat)
    requires k < |objects| && DistinctNames(objects) && ParentsFirst(objects) && AllAnchored(objects, objects[..k])
    ensures Anchor(objects[k]) in Keys(objects[..k]) <==> Anchored(objects, objects[k])
    ensures objects[..k + 1] == objects[..k] + [objects[k]]
    ensures Anchored(objects, objects[k]) ==>
              && AllAnchored(objects, objects[..k + 1]) && Some(objects[k].name) !in Keys(objects[..k])
              && ChildNames(objects[..k] + [objects[k]], Some(objects[k].name)) == []
    ensures !Anchored(objects, objects[k]) ==> !AllAnchored(objects, objects)
  {
    NextPrefix(objects, k);
    LookupMisses(objects, k);
    if Anchored(objects, objects[k]) {
      NoChildrenYet(objects, k);
    } else {
      assert objects[k] in objects;
    }
  }

  method Hang(found: map<Option<string>, Node>, ghost before: seq<ClassDef>, c: ClassDef)
      returns (grown: map<Option<string>, Node>)
    requires IsTree(found, before) && Anchor(c) in found && Some(c.name) !in found
    requires ChildNames(before + [c], Some(c.name)) == []
    modifies found[Anchor(c)]
    ensures fresh(grown.Values - found.Values)
    ensures IsTree(grown, before + [c]) && None in grown && grown[None] == found[None]
  {
    var parent := found[Anchor(c)];
    var node := new Node(Some(c.name));
    parent.AddChild(node);
    grown := found[node.name := node];
    HungNames(before, c);
    assert Names([]) == [];
    forall key | key in grown
      ensures IsNode(grown, key, before + [c])
    {
      if key != node.name {
        assert old(IsNode(found, key, before));
        if key == Anchor(c) {
          assert Names(parent.subclasses) == Names(old(parent.subclasses)) + [Some(c.name)];
        } else {
          assert found[key] != parent;
        }
      }
    }
  }

  lemma HungNames(before: seq<ClassDef>, c: ClassDef)
    ensures Keys(before + [c]) == Keys(before) + {Some(c.name)}
    ensures forall key ::
              ChildNames(before + [c], key) == ChildNames(before, key) + if Anchor(c) == key then [Some(c.name)] else []
  {
    var after := before + [c];
    InitOfSnoc(before, c);
    assert forall i :: 0 <= i < |before| ==> after[i] == before[i];
    forall key
      ensures key in Keys(after) <==> key in Keys(before) + {Some(c.name)}
    {
      if key in Keys(before) && key.Some? {
        var i :| 0 <= i < |before| && Some(before[i].name) == key;
        assert Some(after[i].name) == key;
      }
      if key == Some(c.name) {
        assert after[|before|] == c;
      }
    }
  }

  /** A class that comes after all classes in `before` and is not its own parent has no child yet. */
  lemma NoChildrenYet(objects: seq<ClassDef>, k: nat)
    requires k < |objects| && DistinctNames(objects) && ParentsFirst(objects)
    requires Anchor(objects[k]) in Keys(objects[..k])
    ensures ChildNames(objects[..k] + [objects[k]], Some(objects[k].name)) == []
    ensures Some(objects[k].name) !in Keys(objects[..k])
  {
    var c := objects[k];
    assert (objects[..k] + [c])[..k] == objects[..k];
    forall i | 0 <= i < k
      ensures Anchor(objects[i]) != Some(c.name)
    {
      assert !IsParent(objects[k], objects[i]);
    }
    NoChildAmong(objects[..k], Some(c.name));
  }

  lemma {:induction false} NoChildAmong(classes: seq<ClassDef>, key: Option<string>)
    requires forall i :: 0 <= i < |classes| ==> Anchor(classes[i]) != key
    ensures ChildNames(classes, key) == []
  {
    if classes != [] {
      NoChildAmong(classes[..|classes| - 1], key);
    }
  }

  /** Each class appears once, under its parent or the root, and nowhere else. */
  lemma {:induction false} OncePerParent(classes: seq<ClassDef>, key: Option<string>, name: string)
    requires DistinctNames(classes)
    ensures multiset(ChildNames(classes, key))[Some(name)] ==
            if exists i :: 0 <= i < |classes| && classes[i].name == name && Anchor(classes[i]) == key then 1 else 0
  {
    if classes != [] {
      var before, c := classes[..|classes| - 1], classes[|classes| - 1];
      OncePerParent(before, key, name);
      assert forall i :: 0 <= i < |before| ==> before[i] == classes[i];
      assert multiset(ChildNames(classes, key)) ==
             multiset(ChildNames(before, key)) + multiset(if Anchor(c) == key then [Some(c.name)] else []);
    }
  }

  lemma SameListed(a: seq<ClassDef>, b: seq<ClassDef>)
    requires multiset(a) == multiset(b)
    ensures forall name :: Listed(a, name) <==> Listed(b, name)
  {
    PermutedMembers(a, b);
    forall name | Listed(a, name)
      ensures Listed(b, name)
    {
      var i :| 0 <= i < |a| && a[i].name == name;
      assert a[i] in b;
    }
    forall name | Listed(b, name)
      ensures Listed(a, name)
    {
      var i :| 0 <= i < |b| && b[i].name == name;
      assert b[i] in a;
    }
  }

  /** The lookup finds a node exactly when the class is anchored, since parents come first. */
  lemma LookupMisses(objects: seq<ClassDef>, k: nat)
    requires k < |objects| && DistinctNames(objects) && ParentsFirst(objects)
    ensures Anchor(objects[k]) in Keys(objects[..k]) <==> Anchored(objects, objects[k])
  {
    var c, before := objects[k], objects[..k];
    if Anchor(c).Some? {
      var p := Anchor(c).value;
      if Anchor(c) in Keys(before) {
        var i :| 0 <= i < |before| && Some(before[i].name) == Anchor(c);
        assert objects[i].name == p && Listed(objects, p);
      }
      if Anchored(objects, c) {
        assert Listed(objects, p);
        var i :| 0 <= i < |objects| && objects[i].name == p;
        assert !(k < i);
        assert before[i].name == p;
      }
    }
  }
}
