/**
 The common prefix that is cut off the values of an enumeration to make their nicks (write_enum_defs of
 codegen/h2def.py).
 */
module EnumPrefix {
  import opened Wrappers

  /** A place where the prefix may be cut: nothing of it, or behind an underscore. */
  predicate IsCut(s: string) {
    s == "" || s[|s| - 1] == '_'
  }

  /** The loop leaves a prefix alone for this entry. */
  predicate Suits(prefix: string, entry: string) {
    IsCut(prefix) && prefix < entry
  }

  predicate SuitsAll(prefix: string, entries: seq<string>) {
    forall i :: 0 <= i < |entries| ==> Suits(prefix, entries[i])
  }

  /** The entries that the shortening ends for: no prefix suits an empty one, so the loop would go on for
      ever. */
  predicate NoneEmpty(entries: seq<string>) {
    forall i :: 0 <= i < |entries| ==> entries[i] != ""
  }

  ghost predicate IsLongestPrefix(prefix: string, entries: seq<string>) {
    SuitsAll(prefix, entries) && forall other :: SuitsAll(other, entries) ==> other <= prefix
  }

  lemma PrefixStep(shorter: string, longer: string, other: string)
    requires other <= longer && shorter <= longer && |other| <= |shorter|
    ensures other <= shorter
  {
  }

  /** Shortens the prefix until it suits one more entry. */
  method Shorten(start: string, entry: string) returns (prefix: string)
    requires entry != ""
    ensures Suits(prefix, entry) && prefix <= start
    ensures forall other :: other <= start && Suits(other, entry) ==> other <= prefix
  {
    prefix := start;
    while (|prefix| != 0 && prefix[|prefix| - 1] != '_') || !(prefix <= entry) || |prefix| >= |entry|
      invariant prefix <= start
      invariant forall other :: other <= start && Suits(other, entry) ==> other <= prefix
      decreases |prefix|
    {
      var shorter := prefix[..|prefix| - 1];
      forall other | other <= start && Suits(other, entry)
        ensures other <= shorter
      {
        assert other <= prefix && other != prefix;
        PrefixStep(shorter, prefix, other);
      }
      prefix := shorter;
    }
  }

  /** The result is the longest cut that is a proper prefix of every entry. */
  method CommonPrefix(entries: seq<string>) returns (prefix: string)
    requires entries != [] && NoneEmpty(entries)
    ensures IsLongestPrefix(prefix, entries)
  {
    prefix := entries[0];
    for i := 0 to |entries|
      invariant i > 0 ==> SuitsAll(prefix, entries[..i])
      invariant prefix <= entries[0]
      invariant forall other :: SuitsAll(other, entries) ==> other <= prefix
    {
      var longer := prefix;
      prefix := Shorten(longer, entries[i]);
      ShorterSuits(prefix, longer, entries, i);
      forall other | SuitsAll(other, entries)
        ensures other <= prefix
      {
        assert Suits(other, entries[i]);
      }
    }
    assert entries[..|entries|] == entries;
  }

  lemma ShorterSuits(prefix: string, longer: string, entries: seq<string>, i: nat)
    requires i < |entries| && prefix <= longer && Suits(prefix, entries[i]) &&
             (i > 0 ==> SuitsAll(longer, entries[..i]))
    ensures SuitsAll(prefix, entries[..i + 1])
  {
    forall k | 0 <= k < i + 1
      ensures Suits(prefix, entries[k])
    {
      assert k < i ==> Suits(longer, entries[..i][k]);
    }
  }

  // ---------- nicks ----------

  function TranslateChar(c: char): char {
    if 'A' <= c <= 'Z' then c - 'A' + 'a' else if c == '_' then '-' else c
  }

  function Translate(s: string): string {
    seq(|s|, i requires 0 <= i < |s| => TranslateChar(s[i]))
  }

  function Nick(entry: string, prefixLength: nat): string
    requires prefixLength <= |entry|
  {
    Translate(entry[prefixLength..])
  }

  /** Upper and lower case made the same. */
  function Fold(s: string): string {
    seq(|s|, i requires 0 <= i < |s| => if 'A' <= s[i] <= 'Z' then s[i] - 'A' + 'a' else s[i])
  }

  predicate IsIdentifier(s: string) {
    forall i :: 0 <= i < |s| ==> 'a' <= s[i] <= 'z' || 'A' <= s[i] <= 'Z' || '0' <= s[i] <= '9' || s[i] == '_'
  }

  lemma TranslateTells(a: string, b: string)
    requires IsIdentifier(a) && IsIdentifier(b)
    ensures Translate(a) == Translate(b) <==> Fold(a) == Fold(b)
  {
    if Translate(a) == Translate(b) {
      assert |a| == |Translate(a)| == |b|;
      forall i | 0 <= i < |a|
        ensures Fold(a)[i] == Fold(b)[i]
      {
        assert Translate(a)[i] == Translate(b)[i];
      }
    }
    if Fold(a) == Fold(b) {
      assert |a| == |Fold(a)| == |b|;
      forall i | 0 <= i < |a|
        ensures Translate(a)[i] == Translate(b)[i]
      {
        assert Fold(a)[i] == Fold(b)[i];
      }
    }
  }

  /** No nick is empty, and two entries get the same nick exactly when they differ in case only. */
  lemma NicksTellEntriesApart(prefix: string, a: string, b: string)
    requires Suits(prefix, a) && Suits(prefix, b) && IsIdentifier(a) && IsIdentifier(b)
    ensures Nick(a, |prefix|) != ""
    ensures Nick(a, |prefix|) == Nick(b, |prefix|) <==> Fold(a) == Fold(b)
  {
    var n := |prefix|;
    assert a == prefix + a[n..] && b == prefix + b[n..];
    TranslateTells(a[n..], b[n..]);
    assert Fold(a) == Fold(prefix) + Fold(a[n..]) && Fold(b) == Fold(prefix) + Fold(b[n..]);
    if Fold(a) == Fold(b) {
      assert Fold(a)[n..] == Fold(a[n..]) && Fold(b)[n..] == Fold(b[n..]);
    }
  }

  /** What is left of an entry behind the prefix, in lower case and with hyphens for underscores. */
  lemma NickIs(prefix: string, rest: string)
    requires IsIdentifier(rest)
    ensures var nick := Nick(prefix + rest, |prefix|);
            && |nick| == |rest| && Fold(nick) == nick
            && forall i :: 0 <= i < |rest| ==>
                 if rest[i] == '_' then nick[i] == '-' else nick[i] == Fold(rest)[i]
  {
    assert (prefix + rest)[|prefix|..] == rest;
  }

  predicate AreNicks(nicks: seq<string>, prefix: string, entries: seq<string>) {
    |nicks| == |entries| &&
    forall i :: 0 <= i < |entries| ==> |prefix| <= |entries[i]| && nicks[i] == Nick(entries[i], |prefix|)
  }

  datatype NickError = IndexError

  /** The values of one enumeration; without any entry the first lookup fails. */
  method WriteNicks(entries: seq<string>) returns (nicks: Result<seq<string>, NickError>)
    requires NoneEmpty(entries)
    ensures nicks.Err? <==> entries == []
    ensures nicks.Ok? ==> exists prefix :: IsLongestPrefix(prefix, entries) && AreNicks(nicks.value, prefix, entries)
  {
    if entries == [] {
      return Err(IndexError);
    }
    var prefix := CommonPrefix(entries);
    var made: seq<string> := [];
    for i := 0 to |entries|
      invariant AreNicks(made, prefix, entries[..i])
    {
      assert Suits(prefix, entries[i]);
      made := made + [Nick(entries[i], |prefix|)];
    }
    assert entries[..|entries|] == entries;
    nicks := Ok(made);
  }
}
