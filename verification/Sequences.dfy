/** Facts about sequences that proofs by induction on the last element use over and over. */
module Sequences {
  lemma InitOfSum<T>(a: seq<T>, b: seq<T>)
    requires b != []
    ensures (a + b)[..|a + b| - 1] == a + b[..|b| - 1] && (a + b)[|a + b| - 1] == b[|b| - 1]
  {
  }

  lemma InitOfSnoc<T>(a: seq<T>, x: T)
    ensures (a + [x])[..|a|] == a && (a + [x])[|a|] == x
  {
  }

  lemma InitAndLast<T>(a: seq<T>)
    requires a != []
    ensures a == a[..|a| - 1] + [a[|a| - 1]]
  {
  }

  lemma NextPrefix<T>(a: seq<T>, i: nat)
    requires i < |a|
    ensures a[..i + 1] == a[..i] + [a[i]] && a[..i + 1][..i] == a[..i]
  {
  }

  lemma Whole<T>(a: seq<T>)
    ensures a[..|a|] == a && a[0..] == a && a[|a|..] == [] && [] + a == a
  {
  }

  lemma Associative<T>(a: seq<T>, b: seq<T>, c: seq<T>)
    ensures a + b + c == a + (b + c)
  {
  }

  lemma Unit<T>(a: seq<T>)
    ensures a + [] == a && [] + a == a
  {
  }

  /** Inserting a copy of an element further on and deleting the original moves it. */
  lemma InsertThenDelete<T>(a: seq<T>, pos: nat, i: nat)
    requires pos < i < |a|
    ensures var u := a[..i + 1] + [a[pos]] + a[i + 1..];
            u[..pos] + u[pos + 1..] == a[..pos] + a[pos + 1..i + 1] + [a[pos]] + a[i + 1..]
  {
  }

  lemma MovedMultiset<T>(a: seq<T>, pos: nat, i: nat)
    requires pos < i < |a|
    ensures multiset(a[..pos] + a[pos + 1..i + 1] + [a[pos]] + a[i + 1..]) == multiset(a)
  {
    var before, between, after := a[..pos], a[pos + 1..i + 1], a[i + 1..];
    assert a == before + ([a[pos]] + (between + after));
    assert before + between + [a[pos]] + after == before + (between + ([a[pos]] + after));
  }
}
