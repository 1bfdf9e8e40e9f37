/**
 The definitions of a .defs file (codegen/definitions.py) and the parser that collects them
 (codegen/defsparser.py): how a definition is built from an s-expression and how it is written.
 */
module Definitions {
  import opened Wrappers
  import opened SchemeReader

  datatype Kind = ObjectKind | EnumKind | FlagsKind | BoxedKind | PointerKind

  datatype Key = InModule | Parent | CName | GtypeId | CopyFunc | ReleaseFunc | Fields | Values | Implements

  function KeyText(key: Key): string {
    match key
    case InModule => "in-module"
    case Parent => "parent"
    case CName => "c-name"
    case GtypeId => "gtype-id"
    case CopyFunc => "copy-func"
    case ReleaseFunc => "release-func"
    case Fields => "fields"
    case Values => "values"
    case Implements => "implements"
  }

  function Command(kind: Kind): string {
    match kind
    case ObjectKind => "define-object"
    case EnumKind => "define-enum"
    case FlagsKind => "define-flags"
    case BoxedKind => "define-boxed"
    case PointerKind => "define-pointer"
  }

  /** ObjectDef, EnumDef, FlagsDef, BoxedDef and PointerDef: each uses the fields of its kind.  `rows`
      are the public fields of a structure, or the values of an enumeration. */
  datatype Definition = Definition(
    kind: Kind, name: string, module_: Option<string>, parent: Option<string>, cName: Option<string>,
    typecode: Option<string>, copyFunc: Option<string>, releaseFunc: Option<string>,
    rows: seq<(string, string)>, implements: seq<string>)

  datatype DefError = TypeError | IndexError

  function Blank(kind: Kind, name: string): Definition {
    Definition(kind, name, None, None, None, None, None, None, [], [])
  }

  /** The keys the constructor of this kind looks for; clauses with any other key are skipped. */
  predicate Understands(kind: Kind, key: Key) {
    match key
    case InModule => true
    case CName => true
    case GtypeId => true
    case Parent => kind.ObjectKind?
    case Implements => kind.ObjectKind?
    case CopyFunc => kind.BoxedKind?
    case ReleaseFunc => kind.BoxedKind?
    case Fields => !kind.EnumKind? && !kind.FlagsKind?
    case Values => kind.EnumKind? || kind.FlagsKind?
  }

  // ---------- construction ----------

  function KeyOf(kind: Kind, word: Sexp): Option<Key> {
    if !word.Str? then None
    else if word.text == KeyText(InModule) then Some(InModule)
    else if word.text == KeyText(Parent) && Understands(kind, Parent) then Some(Parent)
    else if word.text == KeyText(CName) then Some(CName)
    else if word.text == KeyText(GtypeId) then Some(GtypeId)
    else if word.text == KeyText(CopyFunc) && Understands(kind, CopyFunc) then Some(CopyFunc)
    else if word.text == KeyText(ReleaseFunc) && Understands(kind, ReleaseFunc) then Some(ReleaseFunc)
    else if word.text == KeyText(Fields) && Understands(kind, Fields) then Some(Fields)
    else if word.text == KeyText(Values) && Understands(kind, Values) then Some(Values)
    else if word.text == KeyText(Implements) && Understands(kind, Implements) then Some(Implements)
    else None
  }

  function AddRows(rows: seq<(string, string)>, items: seq<Sexp>): Result<seq<(string, string)>, DefError>
    decreases |items|
  {
    if items == [] then Ok(rows) else
    match items[0]
    case List(pair) =>
      if |pair| < 2 then Err(IndexError)
      else if pair[0].Str? && pair[1].Str? then AddRows(rows + [(pair[0].text, pair[1].text)], items[1..])
      else Err(TypeError)
    case _ => Err(TypeError)
  }

  /** One round of the constructor's loop over its arguments. */
  function ApplyClause(d: Definition, arg: Sexp): Result<Definition, DefError> {
    if !arg.List? || |arg.items| < 2 then Ok(d) else
    match KeyOf(d.kind, arg.items[0])
    case None => Ok(d)
    case Some(key) =>
      if key.Fields? || key.Values? then
        match AddRows(d.rows, arg.items[1..])
        case Err(e) => Err(e)
        case Ok(rows) => Ok(d.(rows := rows))
      else if !arg.items[1].Str? then Err(TypeError)
      else Ok(SetField(d, key, arg.items[1].text))
  }

  function SetField(d: Definition, key: Key, value: string): Definition
    requires !key.Fields? && !key.Values?
  {
    match key
    case InModule => d.(module_ := Some(value))
    case Parent => d.(parent := Some(value))
    case CName => d.(cName := Some(value))
    case GtypeId => d.(typecode := Some(value))
    case CopyFunc => d.(copyFunc := Some(value))
    case ReleaseFunc => d.(releaseFunc := Some(value))
    case Implements => d.(implements := d.implements + [value])
  }

  function Build(d: Definition, args: seq<Sexp>): Result<Definition, DefError>
    decreases |args|
  {
    if args == [] then Ok(d) else
    match ApplyClause(d, args[0])
    case Err(e) => Err(e)
    case Ok(next) => Build(next, args[1..])
  }

  /** The arguments of define_object and its like: the name, then the clauses. */
  function Construct(kind: Kind, args: seq<Sexp>): Result<Definition, DefError> {
    if args == [] || !args[0].Str? then Err(TypeError) else Build(Blank(kind, args[0].text), args[1..])
  }

  // ---------- writing ----------

  datatype Clause = Entry(key: Key, value: string) | Table(key: Key, rows: seq<(string, string)>)

  /** A field that is None or empty is not written. */
  function IfSet(key: Key, value: Option<string>): seq<Clause> {
    if value.Some? && value.value != "" then [Entry(key, value.value)] else []
  }

  function IfAny(key: Key, rows: seq<(string, string)>): seq<Clause> {
    if rows != [] then [Table(key, rows)] else []
  }

  function ImplementsClauses(names: seq<string>): seq<Clause> {
    seq(|names|, i requires 0 <= i < |names| => Entry(Implements, names[i]))
  }

  /** write_defs adds a string and None when a field it always writes is missing. */
  predicate Writable(d: Definition) {
    match d.kind
    case ObjectKind => d.parent.Some?
    case EnumKind => d.cName.Some? && d.typecode.Some?
    case FlagsKind => d.cName.Some? && d.typecode.Some?
    case BoxedKind => true
    case PointerKind => true
  }

  function Clauses(d: Definition): seq<Clause>
    requires Writable(d)
  {
    match d.kind
    case ObjectKind =>
      IfSet(InModule, d.module_) + [Entry(Parent, d.parent.value)] + ImplementsClauses(d.implements)
      + IfSet(CName, d.cName) + IfSet(GtypeId, d.typecode) + IfAny(Fields, d.rows)
    case BoxedKind =>
      IfSet(InModule, d.module_) + IfSet(CName, d.cName) + IfSet(GtypeId, d.typecode)
      + IfSet(CopyFunc, d.copyFunc) + IfSet(ReleaseFunc, d.releaseFunc) + IfAny(Fields, d.rows)
    case PointerKind =>
      IfSet(InModule, d.module_) + IfSet(CName, d.cName) + IfSet(GtypeId, d.typecode) + IfAny(Fields, d.rows)
    case _ =>
      IfSet(InModule, d.module_) + [Entry(CName, d.cName.value)] + [Entry(GtypeId, d.typecode.value)]
      + IfAny(Values, d.rows)
  }

  function Quote(s: string): string {
    "\"" + (s + "\"")
  }

  function RowLine(row: (string, string)): string {
    "    '(" + (Quote(row.0) + (" " + (Quote(row.1) + ")\n")))
  }

  function RowLines(rows: seq<(string, string)>): seq<string> {
    seq(|rows|, i requires 0 <= i < |rows| => RowLine(rows[i]))
  }

  function ClauseLines(c: Clause): seq<string> {
    match c
    case Entry(key, value) => ["  (" + (KeyText(key) + (" " + (Quote(value) + ")\n")))]
    case Table(key, rows) => ["  (" + (KeyText(key) + "\n")] + RowLines(rows) + ["  )\n"]
  }

  function AllClauseLines(cs: seq<Clause>): seq<string> {
    if cs == [] then [] else AllClauseLines(cs[..|cs| - 1]) + ClauseLines(cs[|cs| - 1])
  }

  function HeadLine(d: Definition): string {
    "(" + (Command(d.kind) + (" " + (d.name + "\n")))
  }

  function DefinitionLines(d: Definition): Result<seq<string>, DefError> {
    if Writable(d) then Ok([HeadLine(d)] + AllClauseLines(Clauses(d)) + [")\n", "\n"]) else Err(TypeError)
  }

  lemma NextClause(cs: seq<Clause>, c: Clause)
    ensures AllClauseLines(cs + [c]) == AllClauseLines(cs) + ClauseLines(c)
  {
    assert (cs + [c])[..|cs|] == cs;
  }

  /** write_defs of all definition classes: each `write` adds a whole line. */
  class DefsWriter {
    var lines: seq<string>

    constructor ()
      ensures lines == []
    {
      lines := [];
    }

    /** Since the lines `start`, the clauses `cs` have been written. */
    ghost predicate Wrote(start: seq<string>, cs: seq<Clause>)
      reads this
    {
      lines == start + AllClauseLines(cs)
    }

    method WriteEntry(key: Key, value: string, ghost start: seq<string>, ghost cs: seq<Clause>)
      requires Wrote(start, cs)
      modifies this
      ensures Wrote(start, cs + [Entry(key, value)])
    {
      lines := lines + ["  (" + (KeyText(key) + (" " + (Quote(value) + ")\n")))];
      NextClause(cs, Entry(key, value));
    }

    method WriteIfSet(key: Key, value: Option<string>, ghost start: seq<string>, ghost cs: seq<Clause>)
      requires Wrote(start, cs)
      modifies this
      ensures Wrote(start, cs + IfSet(key, value))
    {
      if value.Some? && value.value != "" {
        WriteEntry(key, value.value, start, cs);
      } else {
        assert cs + [] == cs;
      }
    }

    method WriteTable(key: Key, rows: seq<(string, string)>, ghost start: seq<string>, ghost cs: seq<Clause>)
      requires Wrote(start, cs)
      modifies this
      ensures Wrote(start, cs + IfAny(key, rows))
    {
      if rows == [] {
        assert cs + [] == cs;
        return;
      }
      ghost var before := lines;
      lines := lines + ["  (" + (KeyText(key) + "\n")];
      WriteRows(rows);
      lines := lines + ["  )\n"];
      NextClause(cs, Table(key, rows));
      Regroup(before, ["  (" + (KeyText(key) + "\n")], RowLines(rows), ["  )\n"]);
      Regroup(start, AllClauseLines(cs), ClauseLines(Table(key, rows)), []);
    }

    method WriteRows(rows: seq<(string, string)>)
      modifies this
      ensures lines == old(lines) + RowLines(rows)
    {
      for i := 0 to |rows|
        invariant lines == old(lines) + RowLines(rows[..i])
      {
        lines := lines + [RowLine(rows[i])];
        assert RowLines(rows[..i + 1]) == RowLines(rows[..i]) + [RowLine(rows[i])];
      }
      assert rows[..|rows|] == rows;
    }

    method WriteImplements(names: seq<string>, ghost start: seq<string>, ghost cs: seq<Clause>)
      requires Wrote(start, cs)
      modifies this
      ensures Wrote(start, cs + ImplementsClauses(names))
    {
      assert cs + [] == cs;
      for i := 0 to |names|
        invariant Wrote(start, cs + ImplementsClauses(names[..i]))
      {
        WriteEntry(Implements, names[i], start, cs + ImplementsClauses(names[..i]));
        NextImplements(cs, names, i);
      }
      assert names[..|names|] == names;
    }

    method WriteObjectClauses(d: Definition, ghost start: seq<string>)
      requires d.kind.ObjectKind? && Writable(d) && Wrote(start, [])
      modifies this
      ensures Wrote(start, Clauses(d))
    {
      WriteIfSet(InModule, d.module_, start, []);
      ghost var cs := IfSet(InModule, d.module_);
      assert [] + cs == cs;
      WriteEntry(Parent, d.parent.value, start, cs);
      cs := cs + [Entry(Parent, d.parent.value)];
      WriteImplements(d.implements, start, cs);
      cs := cs + ImplementsClauses(d.implements);
      WriteIfSet(CName, d.cName, start, cs);
      cs := cs + IfSet(CName, d.cName);
      WriteIfSet(GtypeId, d.typecode, start, cs);
      cs := cs + IfSet(GtypeId, d.typecode);
      WriteTable(Fields, d.rows, start, cs);
      cs := cs + IfAny(Fields, d.rows);
      assert cs == Clauses(d);
    }

    method WriteEnumClauses(d: Definition, ghost start: seq<string>)
      requires (d.kind.EnumKind? || d.kind.FlagsKind?) && Writable(d) && Wrote(start, [])
      modifies this
      ensures Wrote(start, Clauses(d))
    {
      WriteIfSet(InModule, d.module_, start, []);
      ghost var cs := IfSet(InModule, d.module_);
      assert [] + cs == cs;
      WriteEntry(CName, d.cName.value, start, cs);
      cs := cs + [Entry(CName, d.cName.value)];
      WriteEntry(GtypeId, d.typecode.value, start, cs);
      cs := cs + [Entry(GtypeId, d.typecode.value)];
      WriteTable(Values, d.rows, start, cs);
      cs := cs + IfAny(Values, d.rows);
      assert cs == Clauses(d);
    }

    method WriteBoxedClauses(d: Definition, ghost start: seq<string>)
      requires d.kind.BoxedKind? && Wrote(start, [])
      modifies this
      ensures Wrote(start, Clauses(d))
    {
      WriteIfSet(InModule, d.module_, start, []);
      ghost var cs := IfSet(InModule, d.module_);
      assert [] + cs == cs;
      WriteIfSet(CName, d.cName, start, cs);
      cs := cs + IfSet(CName, d.cName);
      WriteIfSet(GtypeId, d.typecode, start, cs);
      cs := cs + IfSet(GtypeId, d.typecode);
      WriteIfSet(CopyFunc, d.copyFunc, start, cs);
      cs := cs + IfSet(CopyFunc, d.copyFunc);
      WriteIfSet(ReleaseFunc, d.releaseFunc, start, cs);
      cs := cs + IfSet(ReleaseFunc, d.releaseFunc);
      WriteTable(Fields, d.rows, start, cs);
      cs := cs + IfAny(Fields, d.rows);
      assert cs == Clauses(d);
    }

    method WritePointerClauses(d: Definition, ghost start: seq<string>)
      requires d.kind.PointerKind? && Wrote(start, [])
      modifies this
      ensures Wrote(start, Clauses(d))
    {
      WriteIfSet(InModule, d.module_, start, []);
      ghost var cs := IfSet(InModule, d.module_);
      assert [] + cs == cs;
      WriteIfSet(CName, d.cName, start, cs);
      cs := cs + IfSet(CName, d.cName);
      WriteIfSet(GtypeId, d.typecode, start, cs);
      cs := cs + IfSet(GtypeId, d.typecode);
      WriteTable(Fields, d.rows, start, cs);
      cs := cs + IfAny(Fields, d.rows);
      assert cs == Clauses(d);
    }

    method WriteDefs(d: Definition) returns (ok: bool)
      modifies this
      ensures ok == DefinitionLines(d).Ok?
      ensures ok ==> lines == old(lines) + DefinitionLines(d).value
    {
      ghost var start := lines;
      lines := lines + [HeadLine(d)];
      if !Writable(d) {
        return false;
      }
      ghost var head := lines;
      assert lines == head + [];
      match d.kind {
        case ObjectKind => WriteObjectClauses(d, head);
        case BoxedKind => WriteBoxedClauses(d, head);
        case PointerKind => WritePointerClauses(d, head);
        case _ => WriteEnumClauses(d, head);
      }
      lines := lines + [")\n", "\n"];
      Regroup(start, [HeadLine(d)], AllClauseLines(Clauses(d)), [")\n", "\n"]);
      ok := true;
    }
  }

  lemma NextImplements(cs: seq<Clause>, names: seq<string>, i: nat)
    requires i < |names|
    ensures cs + ImplementsClauses(names[..i + 1]) == cs + ImplementsClauses(names[..i]) + [Entry(Implements, names[i])]
  {
    assert ImplementsClauses(names[..i + 1]) == ImplementsClauses(names[..i]) + [Entry(Implements, names[i])];
  }

  lemma Regroup(a: seq<string>, b: seq<string>, c: seq<string>, d: seq<string>)
    ensures a + b + c + d == a + (b + c + d)
    ensures a + b + c == a + (b + c)
  {
  }
}
