/** The text of definitions, letter by letter: what write_defs puts into a file for each kind. */
module DefsText {
  import opened Sequences
  import opened Wrappers
  import opened SchemeReader
  import opened Definitions
  import opened DefsParser

  // ---------- the text ----------

  /** The opening of a clause. */
  function Opening(key: Key): string {
    match key
    case InModule => "  (in-module \""
    case Parent => "  (parent \""
    case CName => "  (c-name \""
    case GtypeId => "  (gtype-id \""
    case CopyFunc => "  (copy-func \""
    case ReleaseFunc => "  (release-func \""
    case Implements => "  (implements \""
    case Fields => "  (fields\n"
    case Values => "  (values\n"
  }

  function EntryText(key: Key, value: string): string {
    Opening(key) + value + "\")\n"
  }

  function RowText(row: (string, string)): string {
    "    '(\"" + row.0 + "\" \"" + row.1 + "\")\n"
  }

  function RowTexts(rows: seq<(string, string)>): seq<string> {
    if rows == [] then [] else RowTexts(rows[..|rows| - 1]) + [RowText(rows[|rows| - 1])]
  }

  function TableText(key: Key, rows: seq<(string, string)>): seq<string> {
    [Opening(key)] + RowTexts(rows) + ["  )\n"]
  }

  function Beginning(kind: Kind): string {
    match kind
    case ObjectKind => "(define-object "
    case EnumKind => "(define-enum "
    case FlagsKind => "(define-flags "
    case BoxedKind => "(define-boxed "
    case PointerKind => "(define-pointer "
  }

  type EntryWriter = (Key, string) -> string

  type TableWriter = (Key, seq<(string, string)>) -> seq<string>

  /** A line that is there if the field is set. */
  function LineIfSet(key: Key, value: Option<string>, entry: EntryWriter): seq<string> {
    if value.Some? && value.value != "" then [entry(key, value.value)] else []
  }

  function LinesIfAny(key: Key, rows: seq<(string, string)>, table: TableWriter): seq<string> {
    if rows != [] then table(key, rows) else []
  }

  function ImplementsLines(names: seq<string>, entry: EntryWriter): seq<string> {
    if names == [] then [] else ImplementsLines(names[..|names| - 1], entry) + [entry(Implements, names[|names| - 1])]
  }

  /** The clauses of a definition in their order, for ways of writing single lines and tables. */
  function ClauseText(d: Definition, entry: EntryWriter, table: TableWriter): seq<string>
    requires Writable(d)
  {
    match d.kind
    case ObjectKind =>
      LineIfSet(InModule, d.module_, entry) + [entry(Parent, d.parent.value)] + ImplementsLines(d.implements, entry)
      + LineIfSet(CName, d.cName, entry) + LineIfSet(GtypeId, d.typecode, entry) + LinesIfAny(Fields, d.rows, table)
    case BoxedKind =>
      LineIfSet(InModule, d.module_, entry) + LineIfSet(CName, d.cName, entry) + LineIfSet(GtypeId, d.typecode, entry)
      + LineIfSet(CopyFunc, d.copyFunc, entry) + LineIfSet(ReleaseFunc, d.releaseFunc, entry)
      + LinesIfAny(Fields, d.rows, table)
    case PointerKind =>
      LineIfSet(InModule, d.module_, entry) + LineIfSet(CName, d.cName, entry) + LineIfSet(GtypeId, d.typecode, entry)
      + LinesIfAny(Fields, d.rows, table)
    case _ =>
      LineIfSet(InModule, d.module_, entry) + [entry(CName, d.cName.value)] + [entry(GtypeId, d.typecode.value)]
      + LinesIfAny(Values, d.rows, table)
  }

  function TextOf(d: Definition): seq<string>
    requires Writable(d)
  {
    [Beginning(d.kind) + d.name + "\n"] + ClauseText(d, EntryText, TableText) + [")\n", "\n"]
  }

  // ---------- single lines ----------

  lemma NamingOpenings(key: Key)
    requires key.InModule? || key.Parent? || key.CName?
    ensures Opening(key) == "  (" + (KeyText(key) + (" " + "\""))
  {
  }

  lemma TypeOpenings(key: Key)
    requires key.GtypeId? || key.Implements?
    ensures Opening(key) == "  (" + (KeyText(key) + (" " + "\""))
  {
  }

  lemma FunctionOpenings(key: Key)
    requires key.CopyFunc? || key.ReleaseFunc?
    ensures Opening(key) == "  (" + (KeyText(key) + (" " + "\""))
  {
  }

  lemma TableOpenings(key: Key)
    requires key.Fields? || key.Values?
    ensures Opening(key) == "  (" + (KeyText(key) + "\n")
  {
  }

  lemma EntryPieces(open: string, key: string, gap: string, quote: string, value: string, close: string)
    ensures open + (key + (gap + ((quote + (value + quote)) + close))) ==
            (open + (key + (gap + quote))) + value + (quote + close)
  {
  }

  lemma EntryIsText(key: Key, value: string)
    requires !key.Fields? && !key.Values?
    ensures ClauseLines(Entry(key, value)) == [EntryText(key, value)]
  {
    if key.InModule? || key.Parent? || key.CName? {
      NamingOpenings(key);
    } else if key.GtypeId? || key.Implements? {
      TypeOpenings(key);
    } else {
      FunctionOpenings(key);
    }
    EntryPieces("  (", KeyText(key), " ", "\"", value, ")\n");
    assert "\"" + ")\n" == "\")\n";
  }

  lemma RowPieces(open: string, quote: string, a: string, gap: string, b: string, close: string)
    ensures open + ((quote + (a + quote)) + (gap + ((quote + (b + quote)) + close))) ==
            (open + quote) + a + (quote + (gap + quote)) + b + (quote + close)
  {
  }

  lemma RowIsText(row: (string, string))
    ensures RowLine(row) == RowText(row)
  {
    RowPieces("    '(", "\"", row.0, " ", row.1, ")\n");
    assert "    '(" + "\"" == "    '(\"";
    assert "\"" + (" " + "\"") == "\" \"" && "\"" + ")\n" == "\")\n";
  }

  lemma {:induction false} RowsAreText(rows: seq<(string, string)>)
    ensures RowLines(rows) == RowTexts(rows)
  {
    if rows != [] {
      var before, row := rows[..|rows| - 1], rows[|rows| - 1];
      RowsAreText(before);
      RowIsText(row);
      assert RowLines(rows) == RowLines(before) + [RowLine(row)];
    }
  }

  lemma TableIsText(key: Key, rows: seq<(string, string)>)
    requires key.Fields? || key.Values?
    ensures ClauseLines(Table(key, rows)) == TableText(key, rows)
  {
    TableOpenings(key);
    RowsAreText(rows);
  }

  lemma HeadIsText(d: Definition)
    ensures HeadLine(d) == Beginning(d.kind) + d.name + "\n"
  {
    assert Beginning(d.kind) == "(" + (Command(d.kind) + " ");
    HeadPieces("(", Command(d.kind), " ", d.name + "\n", d.name, "\n");
  }

  lemma HeadPieces(open: string, command: string, gap: string, rest: string, name: string, end: string)
    requires rest == name + end
    ensures open + (command + (gap + rest)) == (open + (command + gap)) + name + end
  {
  }

  // ---------- whole definitions ----------

  /** This is how single clauses are written. */
  ghost predicate Writes(entry: EntryWriter, table: TableWriter) {
    && (forall key: Key, value: string ::
          !key.Fields? && !key.Values? ==> ClauseLines(Entry(key, value)) == [entry(key, value)])
    && (forall key: Key, rows: seq<(string, string)> ::
          key.Fields? || key.Values? ==> ClauseLines(Table(key, rows)) == table(key, rows))
  }

  lemma TextWrites()
    ensures Writes(EntryText, TableText)
  {
    forall key: Key, value | !key.Fields? && !key.Values?
      ensures ClauseLines(Entry(key, value)) == [EntryText(key, value)]
    {
      EntryIsText(key, value);
    }
    forall key: Key, rows | key.Fields? || key.Values?
      ensures ClauseLines(Table(key, rows)) == TableText(key, rows)
    {
      TableIsText(key, rows);
    }
  }

  lemma {:induction false} ClausesAppend(a: seq<Clause>, b: seq<Clause>)
    ensures AllClauseLines(a + b) == AllClauseLines(a) + AllClauseLines(b)
  {
    if b == [] {
      Unit(a);
      Unit(AllClauseLines(a));
    } else {
      var before, c := b[..|b| - 1], b[|b| - 1];
      ClausesAppend(a, before);
      InitOfSum(a, b);
      Associative(AllClauseLines(a), AllClauseLines(before), ClauseLines(c));
    }
  }

  lemma ThenEntry(cs: seq<Clause>, key: Key, value: string, entry: EntryWriter, table: TableWriter)
    requires Writes(entry, table) && !key.Fields? && !key.Values?
    ensures AllClauseLines(cs + [Entry(key, value)]) == AllClauseLines(cs) + [entry(key, value)]
  {
    NextClause(cs, Entry(key, value));
  }

  lemma ThenIfSet(cs: seq<Clause>, key: Key, value: Option<string>, entry: EntryWriter, table: TableWriter)
    requires Writes(entry, table) && !key.Fields? && !key.Values?
    ensures AllClauseLines(cs + IfSet(key, value)) == AllClauseLines(cs) + LineIfSet(key, value, entry)
  {
    if value.Some? && value.value != "" {
      ThenEntry(cs, key, value.value, entry, table);
    } else {
      Unit(cs);
      Unit(AllClauseLines(cs));
    }
  }

  lemma FirstIfSet(key: Key, value: Option<string>, entry: EntryWriter, table: TableWriter)
    requires Writes(entry, table) && !key.Fields? && !key.Values?
    ensures AllClauseLines(IfSet(key, value)) == LineIfSet(key, value, entry)
  {
    ThenIfSet([], key, value, entry, table);
    Unit(IfSet(key, value));
    Unit(LineIfSet(key, value, entry));
  }

  lemma {:induction false} ThenImplements(cs: seq<Clause>, names: seq<string>, entry: EntryWriter, table: TableWriter)
    requires Writes(entry, table)
    ensures AllClauseLines(cs + ImplementsClauses(names)) == AllClauseLines(cs) + ImplementsLines(names, entry)
    decreases |names|
  {
    if names == [] {
      Unit(cs);
      Unit(AllClauseLines(cs));
    } else {
      var before, name := names[..|names| - 1], names[|names| - 1];
      ThenImplements(cs, before, entry, table);
      assert ImplementsClauses(names) == ImplementsClauses(before) + [Entry(Implements, name)];
      Associative(cs, ImplementsClauses(before), [Entry(Implements, name)]);
      ThenEntry(cs + ImplementsClauses(before), Implements, name, entry, table);
      Associative(AllClauseLines(cs), ImplementsLines(before, entry), [entry(Implements, name)]);
    }
  }

  lemma ThenTable(cs: seq<Clause>, key: Key, rows: seq<(string, string)>, entry: EntryWriter, table: TableWriter)
    requires Writes(entry, table) && (key.Fields? || key.Values?)
    ensures AllClauseLines(cs + IfAny(key, rows)) == AllClauseLines(cs) + LinesIfAny(key, rows, table)
  {
    if rows == [] {
      Unit(cs);
      Unit(AllClauseLines(cs));
    } else {
      NextClause(cs, Table(key, rows));
    }
  }

  lemma ObjectText(d: Definition, entry: EntryWriter, table: TableWriter)
    requires d.kind.ObjectKind? && Writable(d) && Writes(entry, table)
    ensures AllClauseLines(Clauses(d)) == ClauseText(d, entry, table)
  {
    var c1 := IfSet(InModule, d.module_);
    var c2 := c1 + [Entry(Parent, d.parent.value)];
    var c3 := c2 + ImplementsClauses(d.implements);
    var c4 := c3 + IfSet(CName, d.cName);
    var c5 := c4 + IfSet(GtypeId, d.typecode);
    FirstIfSet(InModule, d.module_, entry, table);
    ThenEntry(c1, Parent, d.parent.value, entry, table);
    ThenImplements(c2, d.implements, entry, table);
    ThenIfSet(c3, CName, d.cName, entry, table);
    ThenIfSet(c4, GtypeId, d.typecode, entry, table);
    ThenTable(c5, Fields, d.rows, entry, table);
  }

  lemma EnumText(d: Definition, entry: EntryWriter, table: TableWriter)
    requires (d.kind.EnumKind? || d.kind.FlagsKind?) && Writable(d) && Writes(entry, table)
    ensures AllClauseLines(Clauses(d)) == ClauseText(d, entry, table)
  {
    var c1 := IfSet(InModule, d.module_);
    var c2 := c1 + [Entry(CName, d.cName.value)];
    var c3 := c2 + [Entry(GtypeId, d.typecode.value)];
    FirstIfSet(InModule, d.module_, entry, table);
    ThenEntry(c1, CName, d.cName.value, entry, table);
    ThenEntry(c2, GtypeId, d.typecode.value, entry, table);
    ThenTable(c3, Values, d.rows, entry, table);
  }

  lemma PointerText(d: Definition, entry: EntryWriter, table: TableWriter)
    requires d.kind.PointerKind? && Writes(entry, table)
    ensures AllClauseLines(Clauses(d)) == ClauseText(d, entry, table)
  {
    var c1 := IfSet(InModule, d.module_);
    var c2 := c1 + IfSet(CName, d.cName);
    var c3 := c2 + IfSet(GtypeId, d.typecode);
    FirstIfSet(InModule, d.module_, entry, table);
    ThenIfSet(c1, CName, d.cName, entry, table);
    ThenIfSet(c2, GtypeId, d.typecode, entry, table);
    ThenTable(c3, Fields, d.rows, entry, table);
  }

  lemma BoxedText(d: Definition, entry: EntryWriter, table: TableWriter)
    requires d.kind.BoxedKind? && Writes(entry, table)
    ensures AllClauseLines(Clauses(d)) == ClauseText(d, entry, table)
  {
    var c1 := IfSet(InModule, d.module_);
    var c2 := c1 + IfSet(CName, d.cName);
    var c3 := c2 + IfSet(GtypeId, d.typecode);
    var c4 := c3 + IfSet(CopyFunc, d.copyFunc);
    var c5 := c4 + IfSet(ReleaseFunc, d.releaseFunc);
    FirstIfSet(InModule, d.module_, entry, table);
    ThenIfSet(c1, CName, d.cName, entry, table);
    ThenIfSet(c2, GtypeId, d.typecode, entry, table);
    ThenIfSet(c3, CopyFunc, d.copyFunc, entry, table);
    ThenIfSet(c4, ReleaseFunc, d.releaseFunc, entry, table);
    ThenTable(c5, Fields, d.rows, entry, table);
  }

  lemma ClausesAreText(d: Definition, entry: EntryWriter, table: TableWriter)
    requires Writable(d) && Writes(entry, table)
    ensures AllClauseLines(Clauses(d)) == ClauseText(d, entry, table)
  {
    if d.kind.ObjectKind? {
      ObjectText(d, entry, table);
    } else if d.kind.EnumKind? || d.kind.FlagsKind? {
      EnumText(d, entry, table);
    } else if d.kind.BoxedKind? {
      BoxedText(d, entry, table);
    } else {
      PointerText(d, entry, table);
    }
  }

  /** A definition is written as this text, or not at all. */
  lemma DefinitionText(d: Definition)
    ensures DefinitionLines(d) == if Writable(d) then Ok(TextOf(d)) else Err(TypeError)
    ensures DefinitionLines(d).Ok? <==>
            && (d.kind.ObjectKind? ==> d.parent.Some?)
            && (d.kind.EnumKind? || d.kind.FlagsKind? ==> d.cName.Some? && d.typecode.Some?)
  {
    if Writable(d) {
      HeadIsText(d);
      TextWrites();
      ClausesAreText(d, EntryText, TableText);
    }
  }

  // ---------- whole files ----------

  lemma {:induction false} LinesAppend(a: seq<Definition>, b: seq<Definition>)
    requires AllWritable(a) && AllWritable(b)
    ensures AllWritable(a + b) && AllLines(a + b) == AllLines(a) + AllLines(b)
  {
    WritableAppend(a, b);
    if b == [] {
      Unit(a);
      Unit(AllLines(a));
    } else {
      var before := b[..|b| - 1];
      LinesAppend(a, before);
      InitOfSum(a, b);
      Associative(AllLines(a), AllLines(before), DefinitionLines(b[|b| - 1]).value);
    }
  }

  /** A file can be written when every definition in it can. */
  lemma {:induction false} FilesAreWritableWhen(ds: seq<Definition>)
    ensures AllWritable(ds) <==> forall i :: 0 <= i < |ds| ==> Writable(ds[i])
  {
    if ds != [] {
      FilesAreWritableWhen(ds[..|ds| - 1]);
    }
  }

  /** A file holds the objects, then the enumerations and flags, the boxed types and the pointers. */
  lemma FileOrder(defs: Defs)
    requires AllWritable(Written(defs))
    ensures AllWritable(defs.objects) && AllWritable(defs.enums) && AllWritable(defs.boxes) &&
            AllWritable(defs.pointers)
    ensures AllLines(Written(defs)) ==
            AllLines(defs.objects) + AllLines(defs.enums) + AllLines(defs.boxes) + AllLines(defs.pointers)
  {
    WritableParts(defs);
    LinesAppend(defs.objects, defs.enums);
    LinesAppend(defs.objects + defs.enums, defs.boxes);
    LinesAppend(defs.objects + defs.enums + defs.boxes, defs.pointers);
  }

  // ---------- dispatch ----------

  /** A command calls the method whose name it spells, with an underscore for every character that is no
      letter and no digit. */
  predicate Spells(command: string, method_: string) {
    && |command| == |method_|
    && forall i :: 0 <= i < |command| ==>
         command[i] == method_[i] || (method_[i] == '_' && !IsNameChar(command[i]))
  }

  lemma SpellsWhen(command: string, method_: string)
    requires forall i :: 0 <= i < |method_| ==> IsNameChar(method_[i])
    ensures Translate(command) == method_ <==> Spells(command, method_)
  {
    if Translate(command) == method_ {
      assert forall i :: 0 <= i < |command| ==> Translate(command)[i] == method_[i];
    }
  }

  lemma MethodsDiffer(command: string, kind: Kind)
    ensures KindOf(command) == Some(kind) <==> Translate(command) == MethodName(kind)
  {
    assert MethodName(ObjectKind)[7] == 'o' && MethodName(EnumKind)[7] == 'e' && MethodName(FlagsKind)[7] == 'f';
    assert MethodName(BoxedKind)[7] == 'b' && MethodName(PointerKind)[7] == 'p';
  }

  lemma MethodNamesAre(kind: Kind)
    ensures forall i :: 0 <= i < |MethodName(kind)| ==> IsNameChar(MethodName(kind)[i])
  {
  }

  /** A form is handed to the constructor of a kind exactly when its command spells the method's name. */
  lemma CommandsDispatchWhen(command: string, kind: Kind)
    ensures KindOf(command) == Some(kind) <==> Spells(command, MethodName(kind))
    ensures MethodName(kind) == match kind
                                case ObjectKind => "define_object"
                                case EnumKind => "define_enum"
                                case FlagsKind => "define_flags"
                                case BoxedKind => "define_boxed"
                                case PointerKind => "define_pointer"
  {
    MethodsDiffer(command, kind);
    MethodNamesAre(kind);
    SpellsWhen(command, MethodName(kind));
  }
}
