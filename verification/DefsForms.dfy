/** What any form makes of a definition, however its clauses are ordered, repeated, unknown or malformed. */
module DefsForms {
  import opened Sequences
  import opened Wrappers
  import opened SchemeReader
  import opened Definitions
  import opened DefsRoundTrip
  import opened DefsParser

  // ---------- what the clauses say ----------

  /** A clause of this name; lists that are shorter, and atoms, are no clauses. */
  predicate IsClause(arg: Sexp, key: Key) {
    arg.List? && |arg.items| >= 2 && arg.items[0] == Str(KeyText(key))
  }

  /** The value of the last clause of this name. */
  function LastOf(args: seq<Sexp>, key: Key): Option<string> {
    if args == [] then None else
    var last := args[|args| - 1];
    if IsClause(last, key) && last.items[1].Str? then Some(last.items[1].text) else LastOf(args[..|args| - 1], key)
  }

  function AllOf(args: seq<Sexp>, key: Key): seq<string> {
    if args == [] then [] else
    var last := args[|args| - 1];
    AllOf(args[..|args| - 1], key) + if IsClause(last, key) && last.items[1].Str? then [last.items[1].text] else []
  }

  predicate IsPair(item: Sexp) {
    item.List? && |item.items| >= 2 && item.items[0].Str? && item.items[1].Str?
  }

  predicate ArePairs(items: seq<Sexp>) {
    forall i :: 0 <= i < |items| ==> IsPair(items[i])
  }

  function PairsOf(items: seq<Sexp>): seq<(string, string)>
    requires ArePairs(items)
  {
    seq(|items|, i requires 0 <= i < |items| => (items[i].items[0].text, items[i].items[1].text))
  }

  function TableKey(kind: Kind): Key {
    if kind.EnumKind? || kind.FlagsKind? then Values else Fields
  }

  /** The rows of all tables, in order. */
  function RowsOf(args: seq<Sexp>, key: Key): seq<(string, string)> {
    if args == [] then [] else
    var last := args[|args| - 1];
    RowsOf(args[..|args| - 1], key) +
    if IsClause(last, key) && ArePairs(last.items[1..]) then PairsOf(last.items[1..]) else []
  }

  /** The clauses with one value that a kind has. */
  function EntryKeys(kind: Kind): set<Key> {
    match kind
    case ObjectKind => {InModule, CName, GtypeId, Parent, Implements}
    case BoxedKind => {InModule, CName, GtypeId, CopyFunc, ReleaseFunc}
    case _ => {InModule, CName, GtypeId}
  }

  /** The clauses that a kind has hold what it expects of them; what else there is does not matter. */
  predicate IsUsable(kind: Kind, arg: Sexp) {
    && (forall key :: key in EntryKeys(kind) && IsClause(arg, key) ==> arg.items[1].Str?)
    && (IsClause(arg, TableKey(kind)) ==> ArePairs(arg.items[1..]))
  }

  predicate AllUsable(kind: Kind, args: seq<Sexp>) {
    forall i :: 0 <= i < |args| ==> IsUsable(kind, args[i])
  }

  /** The definition that a form describes. */
  function Described(kind: Kind, name: string, args: seq<Sexp>): Definition {
    Definition(
      kind, name, LastOf(args, InModule), if kind.ObjectKind? then LastOf(args, Parent) else None,
      LastOf(args, CName), LastOf(args, GtypeId), if kind.BoxedKind? then LastOf(args, CopyFunc) else None,
      if kind.BoxedKind? then LastOf(args, ReleaseFunc) else None,
      RowsOf(args, TableKey(kind)), if kind.ObjectKind? then AllOf(args, Implements) else [])
  }

  // ---------- tables ----------

  lemma {:induction false} AddRowsWhen(rows: seq<(string, string)>, items: seq<Sexp>)
    ensures AddRows(rows, items) == if ArePairs(items) then Ok(rows + PairsOf(items)) else AddRows(rows, items)
    ensures AddRows(rows, items).Ok? <==> ArePairs(items)
    decreases |items|
  {
    if items == [] {
      assert rows + PairsOf(items) == rows;
    } else if IsPair(items[0]) {
      var pair := (items[0].items[0].text, items[0].items[1].text);
      AddRowsWhen(rows + [pair], items[1..]);
      assert ArePairs(items) <==> ArePairs(items[1..]);
      if ArePairs(items) {
        assert PairsOf(items) == [pair] + PairsOf(items[1..]);
        Associative(rows, [pair], PairsOf(items[1..]));
      }
    }
  }

  // ---------- one clause ----------

  lemma TextsDiffer(a: Key, b: Key)
    requires KeyText(a) == KeyText(b)
    ensures a == b
  {
  }

  lemma KeyIs(kind: Kind, word: Sexp, key: Key)
    ensures KeyOf(kind, word) == Some(key) <==> word == Str(KeyText(key)) && Understands(kind, key)
  {
    if KeyOf(kind, word) == Some(key) {
      assert word.Str? && word.text == KeyText(key);
    }
    if word == Str(KeyText(key)) && Understands(kind, key) {
      KeysDiffer(kind, key);
    }
  }

  lemma UnderstoodAre(kind: Kind, key: Key)
    ensures Understands(kind, key) <==> key in EntryKeys(kind) || key == TableKey(kind)
  {
  }

  /** One more argument that names no clause of this kind. */
  lemma NoClause(d: Definition, args: seq<Sexp>, arg: Sexp)
    requires d == Described(d.kind, d.name, args)
    requires forall key :: Understands(d.kind, key) ==> !IsClause(arg, key)
    ensures d == Described(d.kind, d.name, args + [arg]) && IsUsable(d.kind, arg)
  {
    InitOfSnoc(args, arg);
    assert UnderstandsAll(d.kind);
    Unit(d.rows);
    Unit(d.implements);
  }

  predicate UnderstandsAll(kind: Kind) {
    && Understands(kind, InModule) && Understands(kind, CName) && Understands(kind, GtypeId)
    && Understands(kind, TableKey(kind))
    && (kind.ObjectKind? ==> Understands(kind, Parent) && Understands(kind, Implements))
    && (kind.BoxedKind? ==> Understands(kind, CopyFunc) && Understands(kind, ReleaseFunc))
  }

  lemma OnlyClause(arg: Sexp, key: Key)
    requires IsClause(arg, key)
    ensures forall other :: IsClause(arg, other) ==> other == key
  {
    forall other | IsClause(arg, other)
      ensures other == key
    {
      TextsDiffer(other, key);
    }
  }

  lemma EntryClause(d: Definition, args: seq<Sexp>, arg: Sexp, key: Key)
    requires d == Described(d.kind, d.name, args) && key in EntryKeys(d.kind)
    requires IsClause(arg, key) && arg.items[1].Str? && forall other :: IsClause(arg, other) ==> other == key
    ensures SetField(d, key, arg.items[1].text) == Described(d.kind, d.name, args + [arg])
  {
    InitOfSnoc(args, arg);
    Unit(d.rows);
    Unit(d.implements);
  }

  lemma TableClause(d: Definition, args: seq<Sexp>, arg: Sexp)
    requires d == Described(d.kind, d.name, args)
    requires IsClause(arg, TableKey(d.kind)) && ArePairs(arg.items[1..])
    requires forall other :: IsClause(arg, other) ==> other == TableKey(d.kind)
    ensures d.(rows := d.rows + PairsOf(arg.items[1..])) == Described(d.kind, d.name, args + [arg])
  {
    InitOfSnoc(args, arg);
    Unit(d.implements);
  }

  lemma ApplyIs(d: Definition, args: seq<Sexp>, arg: Sexp)
    requires d == Described(d.kind, d.name, args)
    ensures ApplyClause(d, arg).Ok? <==> IsUsable(d.kind, arg)
    ensures IsUsable(d.kind, arg) ==> ApplyClause(d, arg) == Ok(Described(d.kind, d.name, args + [arg]))
  {
    if !arg.List? || |arg.items| < 2 {
      NoClause(d, args, arg);
      return;
    }
    match KeyOf(d.kind, arg.items[0]) {
      case None =>
        forall key | Understands(d.kind, key)
          ensures !IsClause(arg, key)
        {
          KeyIs(d.kind, arg.items[0], key);
        }
        NoClause(d, args, arg);
      case Some(key) =>
        KeyIs(d.kind, arg.items[0], key);
        UnderstoodAre(d.kind, key);
        OnlyClause(arg, key);
        if key == TableKey(d.kind) {
          AddRowsWhen(d.rows, arg.items[1..]);
          if ArePairs(arg.items[1..]) {
            TableClause(d, args, arg);
          }
        } else if arg.items[1].Str? {
          EntryClause(d, args, arg, key);
        }
    }
  }

  // ---------- whole forms ----------

  lemma {:induction false} BuildIs(kind: Kind, name: string, args: seq<Sexp>)
    ensures Build(Definitions.Blank(kind, name), args).Ok? <==> AllUsable(kind, args)
    ensures AllUsable(kind, args) ==> Build(Definitions.Blank(kind, name), args) == Ok(Described(kind, name, args))
    decreases |args|
  {
    if args != [] {
      var before, last := args[..|args| - 1], args[|args| - 1];
      BuildIs(kind, name, before);
      InitAndLast(args);
      BuildAppend(Definitions.Blank(kind, name), before, [last]);
      assert AllUsable(kind, args) <==> AllUsable(kind, before) && IsUsable(kind, last);
      if AllUsable(kind, before) {
        ApplyIs(Described(kind, name, before), before, last);
        LastOne(Described(kind, name, before), last);
      }
    }
  }

  lemma LastOne(d: Definition, arg: Sexp)
    ensures Build(d, [arg]) == ApplyClause(d, arg)
  {
    assert [arg][1..] == [];
  }

  /** A definition is made of any form that names it and whose clauses of its kind are usable: the last
      clause of a name counts, all implemented interfaces and all rows are kept, and the rest is skipped. */
  lemma FormsConstructWhen(kind: Kind, args: seq<Sexp>)
    ensures Construct(kind, args).Ok? <==> args != [] && args[0].Str? && AllUsable(kind, args[1..])
    ensures Construct(kind, args).Ok? ==> Construct(kind, args).value == Described(kind, args[0].text, args[1..])
  {
    if args != [] && args[0].Str? {
      BuildIs(kind, args[0].text, args[1..]);
    }
  }

  // ---------- files of forms ----------

  /** The kind whose method a form's command names (DefsText.CommandsDispatchWhen), if there is one. */
  function NamedBy(form: Sexp): Option<Kind> {
    if form.List? && form.items != [] && form.items[0].Str? then KindOf(form.items[0].text) else None
  }

  predicate Describes(kind: Kind, args: seq<Sexp>) {
    args != [] && args[0].Str? && AllUsable(kind, args[1..])
  }

  /** A form that is handled without an exception; one with any other command is skipped. */
  predicate IsFine(form: Sexp) {
    && form.List? && form.items != [] && form.items[0].Str?
    && (NamedBy(form).Some? ==> Describes(NamedBy(form).value, form.items[1..]))
  }

  predicate AllFine(forms: seq<Sexp>) {
    forall i :: 0 <= i < |forms| ==> IsFine(forms[i])
  }

  /** The definition that a form makes. */
  function MadeBy(form: Sexp): Option<Definition> {
    if IsFine(form) && NamedBy(form).Some?
    then Some(Described(NamedBy(form).value, form.items[1].text, form.items[2..])) else None
  }

  /** The definitions of some kinds, in the order of their forms. */
  function MadeOf(forms: seq<Sexp>, kinds: set<Kind>): seq<Definition> {
    if forms == [] then [] else
    var made := MadeBy(forms[|forms| - 1]);
    MadeOf(forms[..|forms| - 1], kinds) + if made.Some? && made.value.kind in kinds then [made.value] else []
  }

  /** The four lists are those they were, and behind them what the forms make. */
  predicate Gathers(defs: Defs, forms: seq<Sexp>, after: Defs) {
    && after.objects == defs.objects + MadeOf(forms, {ObjectKind})
    && after.enums == defs.enums + MadeOf(forms, {EnumKind, FlagsKind})
    && after.boxes == defs.boxes + MadeOf(forms, {BoxedKind})
    && after.pointers == defs.pointers + MadeOf(forms, {PointerKind})
  }

  lemma HandledWhen(defs: Defs, form: Sexp)
    ensures Handle(defs, form).Ok? <==> IsFine(form)
    ensures var made := MadeBy(form);
            IsFine(form) ==>
              Handle(defs, form) ==
              Ok(if made.Some? then Put(defs, DrawerOf(made.value.kind), [made.value]) else defs)
  {
    if NamedBy(form).Some? {
      var args := form.items[1..];
      FormsConstructWhen(NamedBy(form).value, args);
      if Describes(NamedBy(form).value, args) {
        assert args[0] == form.items[1] && args[1..] == form.items[2..];
      }
    }
  }

  lemma Gathered(defs: Defs, forms: seq<Sexp>, after: Defs, made: Option<Definition>)
    requires forms != [] && Gathers(defs, forms[..|forms| - 1], after) && made == MadeBy(forms[|forms| - 1])
    ensures Gathers(defs, forms, if made.Some? then Put(after, DrawerOf(made.value.kind), [made.value]) else after)
  {
  }

  /** Any file of forms: it is handled without an exception exactly when each of its forms is fine, and the
      four lists then hold what the forms describe, in order. */
  lemma {:induction false} FormsAreFiledWhen(defs: Defs, forms: seq<Sexp>)
    ensures HandleAll(defs, forms).Ok? <==> AllFine(forms)
    ensures HandleAll(defs, forms).Ok? ==> Gathers(defs, forms, HandleAll(defs, forms).value)
    decreases |forms|
  {
    if forms != [] {
      var before := forms[..|forms| - 1];
      FormsAreFiledWhen(defs, before);
      assert AllFine(forms) <==> AllFine(before) && IsFine(forms[|forms| - 1]);
      if AllFine(before) {
        var after, form := HandleAll(defs, before).value, forms[|forms| - 1];
        HandledWhen(after, form);
        Gathered(defs, forms, after, MadeBy(form));
      }
    }
  }

  /** What is collected comes from the forms in front of the first that is not fine. */
  lemma {:induction false} CollectedComeFirst(defs: Defs, forms: seq<Sexp>, k: nat)
    requires k <= |forms| && AllFine(forms[..k]) && (k < |forms| ==> !IsFine(forms[k]))
    ensures Gathers(defs, forms[..k], Collected(defs, forms))
    decreases |forms|
  {
    FormsAreFiledWhen(defs, forms);
    if k == |forms| {
      assert forms[..k] == forms;
    } else {
      var before := forms[..|forms| - 1];
      assert !AllFine(forms);
      assert before[..k] == forms[..k];
      CollectedComeFirst(defs, before, k);
    }
  }

  /** A whole file: a form that is not fine ends it first, and then an error of the reader. */
  lemma LoadFailsWhen(defs: Defs, lines: seq<string>, numeral: Numeral)
    ensures var parsed, loaded := ParseResult(lines, numeral), Load(defs, lines, numeral);
            && (loaded.Err? && loaded.error.HandlerError? <==> !AllFine(parsed.forest))
            && (AllFine(parsed.forest) && parsed.error.Some? ==> loaded == Err(ReaderError(parsed.error.value)))
            && (loaded.Ok? <==> AllFine(parsed.forest) && parsed.error.None?)
            && (loaded.Ok? ==> Gathers(defs, parsed.forest, loaded.value))
  {
    FormsAreFiledWhen(defs, ParseResult(lines, numeral).forest);
  }
}
