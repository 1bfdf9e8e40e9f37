/** Writing a set of definitions and reading it back: scmexpr, definitions and defsparser together. */
module DefsRoundTrip {
  import opened Wrappers
  import opened SchemeReader
  import opened SchemeGrammar
  import opened Definitions
  import opened DefsLexing

  // ---------- the s-expression of a definition ----------

  function RowSexp(row: (string, string)): Sexp {
    List([Str(row.0), Str(row.1)])
  }

  function RowSexps(rows: seq<(string, string)>): seq<Sexp> {
    seq(|rows|, i requires 0 <= i < |rows| => RowSexp(rows[i]))
  }

  function ClauseSexp(c: Clause): Sexp {
    match c
    case Entry(key, value) => List([Str(KeyText(key)), Str(value)])
    case Table(key, rows) => List([Str(KeyText(key))] + RowSexps(rows))
  }

  function ClauseSexps(cs: seq<Clause>): seq<Sexp> {
    seq(|cs|, i requires 0 <= i < |cs| => ClauseSexp(cs[i]))
  }

  function DefinitionSexp(d: Definition): Sexp
    requires Writable(d)
  {
    List([Str(Command(d.kind)), Str(d.name)] + ClauseSexps(Clauses(d)))
  }

  // ---------- the lines spell it ----------

  function LinesMarks(lines: seq<string>, numeral: Numeral): seq<Mark> {
    if lines == [] then [] else LinesMarks(lines[..|lines| - 1], numeral) + LexMarks(lines[|lines| - 1], numeral)
  }

  lemma LinesMarksSnoc(lines: seq<string>, line: string, numeral: Numeral)
    ensures LinesMarks(lines + [line], numeral) == LinesMarks(lines, numeral) + LexMarks(line, numeral)
  {
    assert (lines + [line])[..|lines|] == lines;
  }

  lemma {:induction false} LinesMarksAppend(a: seq<string>, b: seq<string>, numeral: Numeral)
    ensures LinesMarks(a + b, numeral) == LinesMarks(a, numeral) + LinesMarks(b, numeral)
  {
    if b == [] {
      assert a + b == a;
    } else {
      var c, line := b[..|b| - 1], b[|b| - 1];
      assert a + b == (a + c) + [line] && b == c + [line];
      LinesMarksSnoc(a + c, line, numeral);
      LinesMarksSnoc(c, line, numeral);
      LinesMarksAppend(a, c, numeral);
    }
  }

  lemma FlatAllSnoc(xs: seq<Sexp>, x: Sexp)
    ensures FlatAll(xs + [x]) == FlatAll(xs) + Flat(x)
  {
    assert (xs + [x])[..|xs|] == xs;
  }

  lemma FlatPair(a: string, b: string)
    ensures FlatAll([Str(a), Str(b)]) == [Leaf(Str(a)), Leaf(Str(b))]
    ensures FlatAll([Str(a)]) == [Leaf(Str(a))]
  {
    FlatAllSnoc([], Str(a));
    FlatAllSnoc([Str(a)], Str(b));
    assert [] + [Str(a)] == [Str(a)] && [Str(a)] + [Str(b)] == [Str(a), Str(b)];
  }

  predicate SafeRows(rows: seq<(string, string)>) {
    forall i :: 0 <= i < |rows| ==> Faithful(rows[i].0) && Faithful(rows[i].1)
  }

  lemma RowSpells(row: (string, string), numeral: Numeral)
    requires Faithful(row.0) && Faithful(row.1)
    ensures LexMarks(RowLine(row), numeral) == Flat(RowSexp(row))
  {
    LexRowLine(row, numeral);
    FlatPair(row.0, row.1);
  }

  lemma RowsSnoc(rows: seq<(string, string)>, row: (string, string))
    ensures RowLines(rows + [row]) == RowLines(rows) + [RowLine(row)]
    ensures RowSexps(rows + [row]) == RowSexps(rows) + [RowSexp(row)]
  {
  }

  lemma {:induction false} RowsSpell(rows: seq<(string, string)>, numeral: Numeral)
    requires SafeRows(rows)
    ensures LinesMarks(RowLines(rows), numeral) == FlatAll(RowSexps(rows))
  {
    if rows != [] {
      var before, row := rows[..|rows| - 1], rows[|rows| - 1];
      assert rows == before + [row];
      RowsSpell(before, numeral);
      RowsSnoc(before, row);
      LinesMarksSnoc(RowLines(before), RowLine(row), numeral);
      FlatAllSnoc(RowSexps(before), RowSexp(row));
      RowSpells(row, numeral);
    }
  }

  predicate SafeClause(c: Clause) {
    match c
    case Entry(_, value) => Faithful(value)
    case Table(_, rows) => SafeRows(rows)
  }

  lemma EntrySpells(key: Key, value: string, numeral: Numeral)
    requires Faithful(value) && !numeral(KeyText(key))
    ensures LinesMarks(ClauseLines(Entry(key, value)), numeral) == Flat(ClauseSexp(Entry(key, value)))
  {
    var line := ClauseLines(Entry(key, value))[0];
    OneLine(line, numeral);
    LexEntryLine(key, value, numeral);
    FlatPair(KeyText(key), value);
  }

  lemma TableMarks(head: string, rows: seq<string>, foot: string, numeral: Numeral)
    ensures LinesMarks([head] + rows + [foot], numeral) ==
            LexMarks(head, numeral) + LinesMarks(rows, numeral) + LexMarks(foot, numeral)
  {
    OneLine(head, numeral);
    LinesMarksAppend([head], rows, numeral);
    LinesMarksSnoc([head] + rows, foot, numeral);
  }

  lemma TableSpells(key: Key, rows: seq<(string, string)>, numeral: Numeral)
    requires SafeRows(rows) && !numeral(KeyText(key))
    ensures LinesMarks(ClauseLines(Table(key, rows)), numeral) == Flat(ClauseSexp(Table(key, rows)))
  {
    TableMarks("  (" + (KeyText(key) + "\n"), RowLines(rows), "  )\n", numeral);
    LexTableHead(key, numeral);
    LexTableEnd(numeral);
    RowsSpell(rows, numeral);
    FlatPair(KeyText(key), "");
    FlatAllAppend([Str(KeyText(key))], RowSexps(rows));
    Opened(Leaf(Str(KeyText(key))), FlatAll(RowSexps(rows)));
  }

  lemma Opened(first: Mark, inner: seq<Mark>)
    ensures [OpenMark, first] + inner + [CloseMark] == [OpenMark] + ([first] + inner) + [CloseMark]
  {
  }

  lemma ClauseSpells(c: Clause, numeral: Numeral)
    requires SafeClause(c) && !numeral(KeyText(c.key))
    ensures LinesMarks(ClauseLines(c), numeral) == Flat(ClauseSexp(c))
  {
    match c {
      case Entry(key, value) => EntrySpells(key, value, numeral);
      case Table(key, rows) => TableSpells(key, rows, numeral);
    }
  }

  lemma {:induction false} ClausesSpell(cs: seq<Clause>, numeral: Numeral)
    requires forall i :: 0 <= i < |cs| ==> SafeClause(cs[i]) && !numeral(KeyText(cs[i].key))
    ensures LinesMarks(AllClauseLines(cs), numeral) == FlatAll(ClauseSexps(cs))
  {
    if cs != [] {
      var before, c := cs[..|cs| - 1], cs[|cs| - 1];
      ClausesSpell(before, numeral);
      ClauseSpells(c, numeral);
      LinesMarksAppend(AllClauseLines(before), ClauseLines(c), numeral);
      ClauseSexpsSnoc(cs);
      FlatAllSnoc(ClauseSexps(before), ClauseSexp(c));
    }
  }

  lemma ClauseSexpsSnoc(cs: seq<Clause>)
    requires cs != []
    ensures ClauseSexps(cs) == ClauseSexps(cs[..|cs| - 1]) + [ClauseSexp(cs[|cs| - 1])]
  {
  }

  lemma DefinitionSpells(d: Definition, numeral: Numeral)
    requires Writable(d) && IsWord(d.name) && !numeral(d.name) && KeywordsStaySymbols(numeral)
    requires forall c :: c in Clauses(d) ==> SafeClause(c)
    ensures LinesMarks(DefinitionLines(d).value, numeral) == Flat(DefinitionSexp(d))
  {
    var cs := Clauses(d);
    LexHeadLine(d, numeral);
    LexLineEnd(numeral);
    ClausesSpell(cs, numeral);
    FlatPair(Command(d.kind), d.name);
    FlatAllAppend([Str(Command(d.kind)), Str(d.name)], ClauseSexps(cs));
    FramedMarks(HeadLine(d), AllClauseLines(cs), numeral);
    Framed(Leaf(Str(Command(d.kind))), Leaf(Str(d.name)), FlatAll(ClauseSexps(cs)));
  }

  lemma Framed(a: Mark, b: Mark, inner: seq<Mark>)
    ensures [OpenMark, a, b] + inner + [CloseMark] + [] == [OpenMark] + ([a, b] + inner) + [CloseMark]
  {
  }

  lemma OneLine(line: string, numeral: Numeral)
    ensures LinesMarks([line], numeral) == LexMarks(line, numeral)
  {
    LinesMarksSnoc([], line, numeral);
    assert [] + [line] == [line];
  }

  lemma FramedMarks(head: string, body: seq<string>, numeral: Numeral)
    ensures LinesMarks([head] + body + [")\n", "\n"], numeral) ==
            LexMarks(head, numeral) + LinesMarks(body, numeral) + LexMarks(")\n", numeral) + LexMarks("\n", numeral)
  {
    OneLine(head, numeral);
    LinesMarksAppend([head], body, numeral);
    Closed([head] + body, ")\n", "\n", numeral);
  }

  lemma Closed(lines: seq<string>, first: string, second: string, numeral: Numeral)
    ensures LinesMarks(lines + [first, second], numeral) ==
            LinesMarks(lines, numeral) + LexMarks(first, numeral) + LexMarks(second, numeral)
  {
    LinesMarksSnoc(lines, first, numeral);
    LinesMarksSnoc(lines + [first], second, numeral);
    Pieces(lines, first, second);
  }

  lemma Pieces<T>(a: seq<T>, x: T, y: T)
    ensures a + [x, y] == a + [x] + [y]
    ensures [x, y] + a == [x] + ([y] + a)
  {
  }

  // ---------- and it builds the definition again ----------

  lemma {:induction false} BuildAppend(d: Definition, a: seq<Sexp>, b: seq<Sexp>)
    ensures Build(d, a + b) == match Build(d, a) case Err(e) => Err(e) case Ok(next) => Build(next, b)
    decreases |a|
  {
    if a == [] {
      assert a + b == b;
    } else {
      assert (a + b)[1..] == a[1..] + b;
      var first := ApplyClause(d, a[0]);
      if first.Ok? {
        BuildAppend(first.value, a[1..], b);
      }
    }
  }

  lemma KeysDiffer(kind: Kind, key: Key)
    requires Understands(kind, key)
    ensures KeyOf(kind, Str(KeyText(key))) == Some(key)
  {
  }

  lemma BuildClauses(d: Definition, a: seq<Clause>, b: seq<Clause>)
    ensures Build(d, ClauseSexps(a + b)) ==
            match Build(d, ClauseSexps(a)) case Err(e) => Err(e) case Ok(next) => Build(next, ClauseSexps(b))
  {
    assert ClauseSexps(a + b) == ClauseSexps(a) + ClauseSexps(b);
    BuildAppend(d, ClauseSexps(a), ClauseSexps(b));
  }

  lemma BuildEntry(d: Definition, key: Key, value: string)
    requires Understands(d.kind, key) && !key.Fields? && !key.Values?
    ensures Build(d, ClauseSexps([Entry(key, value)])) == Ok(SetField(d, key, value))
  {
    KeysDiffer(d.kind, key);
    var args := ClauseSexps([Entry(key, value)]);
    assert args[0] == List([Str(KeyText(key)), Str(value)]) && args[1..] == [];
  }

  lemma BuildIfSet(d: Definition, key: Key, value: Option<string>)
    requires Understands(d.kind, key) && !key.Fields? && !key.Values?
    ensures Build(d, ClauseSexps(IfSet(key, value))) ==
            Ok(if value.Some? && value.value != "" then SetField(d, key, value.value) else d)
  {
    if value.Some? && value.value != "" {
      BuildEntry(d, key, value.value);
    } else {
      assert ClauseSexps([]) == [];
    }
  }

  lemma {:induction false} BuildImplements(d: Definition, names: seq<string>)
    requires d.kind.ObjectKind?
    ensures Build(d, ClauseSexps(ImplementsClauses(names))) == Ok(d.(implements := d.implements + names))
  {
    if names == [] {
      assert ClauseSexps(ImplementsClauses(names)) == [] && d.implements + names == d.implements;
    } else {
      var before, name := names[..|names| - 1], names[|names| - 1];
      BuildImplements(d, before);
      assert ImplementsClauses(names) == ImplementsClauses(before) + [Entry(Implements, name)];
      BuildClauses(d, ImplementsClauses(before), [Entry(Implements, name)]);
      BuildEntry(d.(implements := d.implements + before), Implements, name);
      assert d.implements + names == d.implements + before + [name];
    }
  }

  lemma {:induction false} AddRowsBack(done: seq<(string, string)>, rows: seq<(string, string)>)
    ensures AddRows(done, RowSexps(rows)) == Ok(done + rows)
    decreases |rows|
  {
    if rows == [] {
      assert done + rows == done;
    } else {
      assert RowSexps(rows)[1..] == RowSexps(rows[1..]);
      AddRowsBack(done + [rows[0]], rows[1..]);
      assert done + [rows[0]] + rows[1..] == done + rows;
    }
  }

  lemma BuildTable(d: Definition, key: Key, rows: seq<(string, string)>)
    requires Understands(d.kind, key) && (key.Fields? || key.Values?)
    ensures Build(d, ClauseSexps(IfAny(key, rows))) == Ok(d.(rows := d.rows + rows))
  {
    if rows == [] {
      assert ClauseSexps([]) == [] && d.rows + rows == d.rows;
    } else {
      KeysDiffer(d.kind, key);
      var items := [Str(KeyText(key))] + RowSexps(rows);
      var args := ClauseSexps([Table(key, rows)]);
      assert args[0] == List(items) && args[1..] == [] && items[1..] == RowSexps(rows);
      AddRowsBack(d.rows, rows);
    }
  }

  // ---------- which definitions survive ----------

  /** A field as it comes back when it is written only if it is true in Python's sense. */
  function Stored(value: Option<string>): Option<string> {
    if value == Some("") then None else value
  }

  /** What is left of a definition once it has been written and read. */
  function Kept(d: Definition): Definition {
    var common := Blank(d.kind, d.name).(module_ := Stored(d.module_), rows := d.rows);
    match d.kind
    case ObjectKind =>
      common.(parent := d.parent, implements := d.implements, cName := Stored(d.cName), typecode := Stored(d.typecode))
    case BoxedKind =>
      common.(cName := Stored(d.cName), typecode := Stored(d.typecode),
              copyFunc := Stored(d.copyFunc), releaseFunc := Stored(d.releaseFunc))
    case PointerKind => common.(cName := Stored(d.cName), typecode := Stored(d.typecode))
    case _ => common.(cName := d.cName, typecode := d.typecode)
  }

  lemma BuildStored(d: Definition, key: Key, value: Option<string>, next: Definition)
    requires Understands(d.kind, key) && !key.Fields? && !key.Values?
    requires next == if Stored(value).Some? then SetField(d, key, value.value) else d
    ensures Build(d, ClauseSexps(IfSet(key, value))) == Ok(next)
  {
    BuildIfSet(d, key, value);
  }

  lemma BuildObject(d: Definition)
    requires d.kind.ObjectKind? && Writable(d)
    ensures Build(Blank(d.kind, d.name), ClauseSexps(Clauses(d))) == Ok(Kept(d))
  {
    var d0 := Blank(d.kind, d.name);
    var d1 := d0.(module_ := Stored(d.module_));
    var d2 := d1.(parent := d.parent);
    var d3 := d2.(implements := d.implements);
    var d4 := d3.(cName := Stored(d.cName));
    var d5 := d4.(typecode := Stored(d.typecode));
    var c1 := IfSet(InModule, d.module_);
    var c2 := c1 + [Entry(Parent, d.parent.value)];
    var c3 := c2 + ImplementsClauses(d.implements);
    var c4 := c3 + IfSet(CName, d.cName);
    var c5 := c4 + IfSet(GtypeId, d.typecode);
    BuildStored(d0, InModule, d.module_, d1);
    BuildClauses(d0, c1, [Entry(Parent, d.parent.value)]);
    BuildEntry(d1, Parent, d.parent.value);
    BuildClauses(d0, c2, ImplementsClauses(d.implements));
    BuildImplements(d2, d.implements);
    assert [] + d.implements == d.implements && [] + d.rows == d.rows;
    BuildClauses(d0, c3, IfSet(CName, d.cName));
    BuildStored(d3, CName, d.cName, d4);
    BuildClauses(d0, c4, IfSet(GtypeId, d.typecode));
    BuildStored(d4, GtypeId, d.typecode, d5);
    BuildClauses(d0, c5, IfAny(Fields, d.rows));
    BuildTable(d5, Fields, d.rows);
  }

  lemma BuildEnum(d: Definition)
    requires (d.kind.EnumKind? || d.kind.FlagsKind?) && Writable(d)
    ensures Build(Blank(d.kind, d.name), ClauseSexps(Clauses(d))) == Ok(Kept(d))
  {
    var d0 := Blank(d.kind, d.name);
    var d1 := d0.(module_ := Stored(d.module_));
    var d2 := d1.(cName := d.cName);
    var d3 := d2.(typecode := d.typecode);
    var c1 := IfSet(InModule, d.module_);
    var c2 := c1 + [Entry(CName, d.cName.value)];
    var c3 := c2 + [Entry(GtypeId, d.typecode.value)];
    BuildStored(d0, InModule, d.module_, d1);
    BuildClauses(d0, c1, [Entry(CName, d.cName.value)]);
    BuildEntry(d1, CName, d.cName.value);
    BuildClauses(d0, c2, [Entry(GtypeId, d.typecode.value)]);
    BuildEntry(d2, GtypeId, d.typecode.value);
    BuildClauses(d0, c3, IfAny(Values, d.rows));
    BuildTable(d3, Values, d.rows);
    assert [] + d.rows == d.rows;
  }

  /** Boxed and pointer definitions; only the former have copy and release functions. */
  lemma BuildStructure(d: Definition)
    requires d.kind.BoxedKind? || d.kind.PointerKind?
    ensures Build(Blank(d.kind, d.name), ClauseSexps(Clauses(d))) == Ok(Kept(d))
  {
    var d0 := Blank(d.kind, d.name);
    var d1 := d0.(module_ := Stored(d.module_));
    var d2 := d1.(cName := Stored(d.cName));
    var d3 := d2.(typecode := Stored(d.typecode));
    var c1 := IfSet(InModule, d.module_);
    var c2 := c1 + IfSet(CName, d.cName);
    var c3 := c2 + IfSet(GtypeId, d.typecode);
    BuildStored(d0, InModule, d.module_, d1);
    BuildClauses(d0, c1, IfSet(CName, d.cName));
    BuildStored(d1, CName, d.cName, d2);
    BuildClauses(d0, c2, IfSet(GtypeId, d.typecode));
    BuildStored(d2, GtypeId, d.typecode, d3);
    assert [] + d.rows == d.rows;
    if d.kind.PointerKind? {
      BuildClauses(d0, c3, IfAny(Fields, d.rows));
      BuildTable(d3, Fields, d.rows);
    } else {
      var c4 := c3 + IfSet(CopyFunc, d.copyFunc);
      var c5 := c4 + IfSet(ReleaseFunc, d.releaseFunc);
      var d4 := d3.(copyFunc := Stored(d.copyFunc));
      var d5 := d4.(releaseFunc := Stored(d.releaseFunc));
      BuildClauses(d0, c3, IfSet(CopyFunc, d.copyFunc));
      BuildStored(d3, CopyFunc, d.copyFunc, d4);
      BuildClauses(d0, c4, IfSet(ReleaseFunc, d.releaseFunc));
      BuildStored(d4, ReleaseFunc, d.releaseFunc, d5);
      BuildClauses(d0, c5, IfAny(Fields, d.rows));
      BuildTable(d5, Fields, d.rows);
    }
  }

  lemma ConstructsKept(d: Definition)
    requires Writable(d)
    ensures Construct(d.kind, DefinitionSexp(d).items[1..]) == Ok(Kept(d))
  {
    assert DefinitionSexp(d).items[1..] == [Str(d.name)] + ClauseSexps(Clauses(d));
    assert ([Str(d.name)] + ClauseSexps(Clauses(d)))[1..] == ClauseSexps(Clauses(d));
    if d.kind.ObjectKind? {
      BuildObject(d);
    } else if d.kind.EnumKind? || d.kind.FlagsKind? {
      BuildEnum(d);
    } else {
      BuildStructure(d);
    }
  }

  predicate IsSet(value: Option<string>) {
    value != Some("")
  }

  /** A definition that holds only what its kind can hold, with every field that is written only
      when set either missing or non-empty. */
  predicate Storable(d: Definition) {
    && IsSet(d.module_)
    && (d.parent.Some? || d.implements != [] ==> d.kind.ObjectKind?)
    && (d.copyFunc.Some? || d.releaseFunc.Some? ==> d.kind.BoxedKind?) && IsSet(d.copyFunc) && IsSet(d.releaseFunc)
    && (!d.kind.EnumKind? && !d.kind.FlagsKind? ==> IsSet(d.cName) && IsSet(d.typecode))
  }

  lemma KeptWhen(d: Definition)
    ensures Kept(d) == d <==> Storable(d)
  {
  }

  /** Exactly the storable definitions are constructed again from what they write. */
  lemma ConstructsAgainWhen(d: Definition)
    requires Writable(d)
    ensures Construct(d.kind, DefinitionSexp(d).items[1..]) == Ok(d) <==> Storable(d)
  {
    ConstructsKept(d);
    KeptWhen(d);
  }

  /** An input that does not survive: an empty module name comes back as no module. */
  lemma EmptyFieldIsLost(name: string)
    ensures var d := Blank(PointerKind, name).(module_ := Some(""));
            Construct(PointerKind, DefinitionSexp(d).items[1..]) == Ok(Blank(PointerKind, name)) &&
            Blank(PointerKind, name) != d
  {
    ConstructsKept(Blank(PointerKind, name).(module_ := Some("")));
  }
}
