/** The parser of .defs files (codegen/defsparser.py), and the round trip of whole files. */
module DefsParser {
  import opened Sequences
  import opened Wrappers
  import opened SchemeReader
  import opened SchemeGrammar
  import opened Definitions
  import opened DefsLexing
  import opened DefsRoundTrip
  import opened TextLines

  /** What the define_* methods collect; enumerations and flags share a list. */
  datatype Defs = Defs(objects: seq<Definition>, enums: seq<Definition>, boxes: seq<Definition>,
                       pointers: seq<Definition>)

  const NO_DEFS := Defs([], [], [], [])

  // ---------- dispatch ----------

  predicate IsNameChar(c: char) {
    'a' <= c <= 'z' || 'A' <= c <= 'Z' || '0' <= c <= '9' || c == '_'
  }

  /** The translation table of the reader's Parser class. */
  function Translate(s: string): string {
    seq(|s|, i requires 0 <= i < |s| => if IsNameChar(s[i]) then s[i] else '_')
  }

  function MethodName(kind: Kind): string {
    match kind
    case ObjectKind => "define_object"
    case EnumKind => "define_enum"
    case FlagsKind => "define_flags"
    case BoxedKind => "define_boxed"
    case PointerKind => "define_pointer"
  }

  function KindOf(command: string): Option<Kind> {
    var method_ := Translate(command);
    if method_ == MethodName(ObjectKind) then Some(ObjectKind)
    else if method_ == MethodName(EnumKind) then Some(EnumKind)
    else if method_ == MethodName(FlagsKind) then Some(FlagsKind)
    else if method_ == MethodName(BoxedKind) then Some(BoxedKind)
    else if method_ == MethodName(PointerKind) then Some(PointerKind)
    else None
  }

  datatype Drawer = Objects | Enums | Boxes | Pointers

  function DrawerOf(kind: Kind): Drawer {
    match kind
    case ObjectKind => Objects
    case BoxedKind => Boxes
    case PointerKind => Pointers
    case _ => Enums
  }

  function Put(defs: Defs, drawer: Drawer, ds: seq<Definition>): Defs {
    match drawer
    case Objects => defs.(objects := defs.objects + ds)
    case Enums => defs.(enums := defs.enums + ds)
    case Boxes => defs.(boxes := defs.boxes + ds)
    case Pointers => defs.(pointers := defs.pointers + ds)
  }

  function Handle(defs: Defs, form: Sexp): Result<Defs, DefError> {
    if !form.List? || form.items == [] then Err(IndexError)
    else if !form.items[0].Str? then Err(TypeError) else
    match KindOf(form.items[0].text)
    case None => Ok(defs)
    case Some(kind) =>
      match Construct(kind, form.items[1..])
      case Err(e) => Err(e)
      case Ok(d) => Ok(Put(defs, DrawerOf(kind), [d]))
  }

  function HandleAll(defs: Defs, forms: seq<Sexp>): Result<Defs, DefError>
    decreases |forms|
  {
    if forms == [] then Ok(defs) else
    match HandleAll(defs, forms[..|forms| - 1])
    case Err(e) => Err(e)
    case Ok(before) => Handle(before, forms[|forms| - 1])
  }

  /** What is there once the forms have been handled in turn, up to the first that fails. */
  function Collected(defs: Defs, forms: seq<Sexp>): Defs
    decreases |forms|
  {
    match HandleAll(defs, forms)
    case Ok(all) => all
    case Err(_) => if forms == [] then defs else Collected(defs, forms[..|forms| - 1])
  }

  datatype LoadError = ReaderError(readError: ReadError) | HandlerError(defError: DefError)

  /** The whole of startParsing on a file with these lines, by a parser that holds `defs`: the reader
      is a generator, so the forms before a syntax error are handled first. */
  function Load(defs: Defs, lines: seq<string>, numeral: Numeral): Result<Defs, LoadError> {
    var parsed := ParseResult(lines, numeral);
    match HandleAll(defs, parsed.forest)
    case Err(e) => Err(HandlerError(e))
    case Ok(after) => if parsed.error.Some? then Err(ReaderError(parsed.error.value)) else Ok(after)
  }

  function Written(defs: Defs): seq<Definition> {
    defs.objects + defs.enums + defs.boxes + defs.pointers
  }

  predicate AllWritable(ds: seq<Definition>) {
    ds == [] || (AllWritable(ds[..|ds| - 1]) && Writable(ds[|ds| - 1]))
  }

  function AllLines(ds: seq<Definition>): seq<string>
    requires AllWritable(ds)
  {
    if ds == [] then [] else AllLines(ds[..|ds| - 1]) + DefinitionLines(ds[|ds| - 1]).value
  }

  class DefsFile {
    const numeral: Numeral
    var objects: seq<Definition>
    var enums: seq<Definition>
    var boxes: seq<Definition>
    var pointers: seq<Definition>

    constructor (numeral: Numeral)
      ensures this.numeral == numeral && Now() == NO_DEFS
    {
      this.numeral := numeral;
      objects, enums, boxes, pointers := [], [], [], [];
    }

    function Now(): Defs
      reads this
    {
      Defs(objects, enums, boxes, pointers)
    }

    method HandleForm(form: Sexp) returns (error: Option<DefError>)
      modifies this
      ensures match Handle(old(Now()), form)
              case Err(e) => error == Some(e) && Now() == old(Now())
              case Ok(next) => error == None && Now() == next
    {
      error := None;
      if !form.List? || form.items == [] {
        return Some(IndexError);
      }
      if !form.items[0].Str? {
        return Some(TypeError);
      }
      var kind := KindOf(form.items[0].text);
      if kind == None {
        return;
      }
      var made := Construct(kind.value, form.items[1..]);
      if made.Err? {
        return Some(made.error);
      }
      var d := made.value;
      match kind.value {
        case ObjectKind => objects := objects + [d];
        case BoxedKind => boxes := boxes + [d];
        case PointerKind => pointers := pointers + [d];
        case _ => enums := enums + [d];
      }
    }

    method StartParsing(lines: seq<string>) returns (error: Option<LoadError>)
      modifies this
      ensures match Load(old(Now()), lines, numeral)
              case Err(e) => error == Some(e)
              case Ok(_) => error == None
      ensures Now() == Collected(old(Now()), ParseResult(lines, numeral).forest)
      ensures error == None ==> Load(old(Now()), lines, numeral) == Ok(Now())
    {
      ghost var start := Now();
      var reader := new Parser(numeral);
      var parsed := reader.Parse(lines);
      var forms := parsed.forest;
      for i := 0 to |forms|
        invariant HandleAll(start, forms[..i]) == Ok(Now())
      {
        assert forms[..i + 1][..i] == forms[..i];
        var failed := HandleForm(forms[i]);
        if failed.Some? {
          HandleStops(start, forms, i);
          CollectedStops(start, forms, i);
          return Some(HandlerError(failed.value));
        }
      }
      assert forms[..|forms|] == forms;
      if parsed.error.Some? {
        return Some(ReaderError(parsed.error.value));
      }
      error := None;
    }

    /** The four loops of write_defs. */
    method WriteDefs() returns (ok: bool, lines: seq<string>)
      ensures ok == AllWritable(Written(Now()))
      ensures ok ==> lines == AllLines(Written(Now()))
    {
      WritableParts(Now());
      var writer := new DefsWriter();
      lines := [];
      ok := WriteList(writer, objects, []);
      if ok {
        Unit(objects);
        ok := WriteList(writer, enums, objects);
      }
      if ok {
        ok := WriteList(writer, boxes, objects + enums);
      }
      if ok {
        ok := WriteList(writer, pointers, objects + enums + boxes);
      }
      if ok {
        lines := writer.lines;
      }
    }

    static method WriteList(writer: DefsWriter, ds: seq<Definition>, ghost done: seq<Definition>) returns (ok: bool)
      requires AllWritable(done) && writer.lines == AllLines(done)
      modifies writer
      ensures ok == AllWritable(ds)
      ensures ok ==> AllWritable(done + ds) && writer.lines == AllLines(done + ds)
    {
      assert done + [] == done;
      for i := 0 to |ds|
        invariant AllWritable(ds[..i]) && AllWritable(done + ds[..i]) && writer.lines == AllLines(done + ds[..i])
      {
        NextLines(done, ds, i);
        var written := writer.WriteDefs(ds[i]);
        if !written {
          WritablePrefix(ds, i + 1);
          return false;
        }
      }
      assert ds[..|ds|] == ds;
      return true;
    }
  }

  lemma {:induction false} WritableAppend(a: seq<Definition>, b: seq<Definition>)
    ensures AllWritable(a + b) <==> AllWritable(a) && AllWritable(b)
  {
    if b == [] {
      Unit(a);
    } else {
      WritableAppend(a, b[..|b| - 1]);
      InitOfSum(a, b);
    }
  }

  lemma WritablePrefix(ds: seq<Definition>, n: nat)
    requires n <= |ds|
    ensures AllWritable(ds) ==> AllWritable(ds[..n])
  {
    assert ds == ds[..n] + ds[n..];
    WritableAppend(ds[..n], ds[n..]);
  }

  lemma WritableParts(defs: Defs)
    ensures AllWritable(Written(defs)) <==>
            AllWritable(defs.objects) && AllWritable(defs.enums) && AllWritable(defs.boxes) &&
            AllWritable(defs.pointers)
    ensures AllWritable(defs.objects) && AllWritable(defs.enums) ==> AllWritable(defs.objects + defs.enums)
    ensures AllWritable(defs.objects) && AllWritable(defs.enums) && AllWritable(defs.boxes) ==>
              AllWritable(defs.objects + defs.enums + defs.boxes)
  {
    WritableAppend(defs.objects, defs.enums);
    WritableAppend(defs.objects + defs.enums, defs.boxes);
    WritableAppend(defs.objects + defs.enums + defs.boxes, defs.pointers);
  }

  /** One definition more behind `done` and the first `i` of `ds`. */
  lemma NextLines(done: seq<Definition>, ds: seq<Definition>, i: nat)
    requires i < |ds| && AllWritable(done) && AllWritable(ds[..i])
    ensures AllWritable(ds[..i + 1]) <==> Writable(ds[i])
    ensures AllWritable(done + ds[..i]) && (AllWritable(done + ds[..i + 1]) <==> Writable(ds[i]))
    ensures Writable(ds[i]) ==> AllLines(done + ds[..i + 1]) == AllLines(done + ds[..i]) + DefinitionLines(ds[i]).value
  {
    NextPrefix(ds, i);
    WritableAppend(done, ds[..i]);
    InitOfSum(done, ds[..i + 1]);
  }

  lemma {:induction false} HandleStops(defs: Defs, forms: seq<Sexp>, i: nat)
    requires i < |forms| && HandleAll(defs, forms[..i + 1]).Err?
    ensures HandleAll(defs, forms) == HandleAll(defs, forms[..i + 1])
    decreases |forms|
  {
    if i + 1 == |forms| {
      assert forms[..i + 1] == forms;
    } else {
      var before := forms[..|forms| - 1];
      assert before[..i + 1] == forms[..i + 1];
      HandleStops(defs, before, i);
    }
  }

  lemma {:induction false} CollectedStops(defs: Defs, forms: seq<Sexp>, i: nat)
    requires i < |forms| && HandleAll(defs, forms[..i]).Ok? && HandleAll(defs, forms[..i + 1]).Err?
    ensures Collected(defs, forms) == HandleAll(defs, forms[..i]).value
    decreases |forms|
  {
    HandleStops(defs, forms, i);
    var before := forms[..|forms| - 1];
    if i < |before| {
      assert before[..i + 1] == forms[..i + 1] && before[..i] == forms[..i];
      CollectedStops(defs, before, i);
    } else {
      assert before == forms[..i];
    }
  }

  // ---------- every written line is one line ----------

  predicate IsCleanString(v: string) {
    Faithful(v) && '\n' !in v
  }

  predicate IsCleanClause(c: Clause) {
    match c
    case Entry(_, value) => IsCleanString(value)
    case Table(_, rows) => forall row :: row in rows ==> IsCleanString(row.0) && IsCleanString(row.1)
  }

  /** A definition that can be saved: its name is a symbol that is not a number, and every string it
      writes is one the reader returns unchanged. */
  predicate Savable(d: Definition, numeral: Numeral) {
    && Writable(d) && IsWord(d.name) && !numeral(d.name)
    && forall c :: c in Clauses(d) ==> IsCleanClause(c)
  }

  lemma Prefixed(prefix: string, line: string)
    requires '\n' !in prefix && IsLine(line)
    ensures IsLine(prefix + line)
  {
    forall i | 0 <= i < |prefix + line| - 1
      ensures (prefix + line)[i] != '\n'
    {
      if i < |prefix| {
        assert prefix[i] in prefix;
      }
    }
  }

  lemma QuotedStays(v: string, line: string)
    requires '\n' !in v && IsLine(line)
    ensures IsLine(Quote(v) + line)
  {
    assert '\n' !in v + "\"";
    Prefixed(Quote(v), line);
  }

  lemma EntryIsLine(key: Key, value: string)
    requires '\n' !in value
    ensures IsLine(ClauseLines(Entry(key, value))[0])
  {
    KeysAreWords(key);
    QuotedStays(value, ")\n");
    Prefixed(" ", Quote(value) + ")\n");
    Prefixed(KeyText(key), " " + (Quote(value) + ")\n"));
    Prefixed("  (", KeyText(key) + (" " + (Quote(value) + ")\n")));
  }

  lemma RowIsLine(row: (string, string))
    requires '\n' !in row.0 && '\n' !in row.1
    ensures IsLine(RowLine(row))
  {
    QuotedStays(row.1, ")\n");
    Prefixed(" ", Quote(row.1) + ")\n");
    QuotedStays(row.0, " " + (Quote(row.1) + ")\n"));
    Prefixed("    '(", Quote(row.0) + (" " + (Quote(row.1) + ")\n")));
  }

  lemma ClauseIsLines(c: Clause)
    requires IsCleanClause(c)
    ensures forall line :: line in ClauseLines(c) ==> IsLine(line)
  {
    match c {
      case Entry(key, value) =>
        EntryIsLine(key, value);
      case Table(key, rows) =>
        KeysAreWords(key);
        Prefixed(KeyText(key), "\n");
        Prefixed("  (", KeyText(key) + "\n");
        forall row | row in rows
          ensures IsLine(RowLine(row))
        {
          RowIsLine(row);
        }
    }
  }

  lemma {:induction false} ClausesAreLines(cs: seq<Clause>)
    requires forall c :: c in cs ==> IsCleanClause(c)
    ensures forall line :: line in AllClauseLines(cs) ==> IsLine(line)
  {
    if cs != [] {
      ClausesAreLines(cs[..|cs| - 1]);
      ClauseIsLines(cs[|cs| - 1]);
    }
  }

  lemma HeadIsLine(d: Definition)
    requires IsWord(d.name)
    ensures IsLine(HeadLine(d))
  {
    CommandsAreWords(d.kind);
    Prefixed(d.name, "\n");
    Prefixed(" ", d.name + "\n");
    Prefixed(Command(d.kind), " " + (d.name + "\n"));
    Prefixed("(", Command(d.kind) + (" " + (d.name + "\n")));
  }

  lemma DefinitionIsLines(d: Definition, numeral: Numeral)
    requires Savable(d, numeral)
    ensures forall line :: line in DefinitionLines(d).value ==> IsLine(line)
  {
    ClausesAreLines(Clauses(d));
    HeadIsLine(d);
    FramedLines(HeadLine(d), AllClauseLines(Clauses(d)));
  }

  lemma FramedLines(head: string, body: seq<string>)
    requires IsLine(head) && forall line :: line in body ==> IsLine(line)
    ensures forall line :: line in [head] + body + [")\n", "\n"] ==> IsLine(line)
  {
  }

  predicate AllSavable(ds: seq<Definition>, numeral: Numeral) {
    ds == [] || (AllSavable(ds[..|ds| - 1], numeral) && Savable(ds[|ds| - 1], numeral))
  }

  lemma {:induction false} SavableIsWritable(ds: seq<Definition>, numeral: Numeral)
    requires AllSavable(ds, numeral)
    ensures AllWritable(ds)
  {
    if ds != [] {
      SavableIsWritable(ds[..|ds| - 1], numeral);
    }
  }

  lemma {:induction false} SavableAppend(a: seq<Definition>, b: seq<Definition>, numeral: Numeral)
    ensures AllSavable(a + b, numeral) <==> AllSavable(a, numeral) && AllSavable(b, numeral)
  {
    if b == [] {
      Unit(a);
    } else {
      SavableAppend(a, b[..|b| - 1], numeral);
      InitOfSum(a, b);
    }
  }

  lemma {:induction false} AllAreLines(ds: seq<Definition>, numeral: Numeral)
    requires AllSavable(ds, numeral)
    ensures AllWritable(ds) && forall line :: line in AllLines(ds) ==> IsLine(line)
  {
    if ds != [] {
      AllAreLines(ds[..|ds| - 1], numeral);
      DefinitionIsLines(ds[|ds| - 1], numeral);
    }
  }

  // ---------- the written lines spell the definitions ----------

  function DefinitionSexps(ds: seq<Definition>): (forms: seq<Sexp>)
    requires AllWritable(ds)
    ensures AllLists(forms)
  {
    if ds == [] then [] else DefinitionSexps(ds[..|ds| - 1]) + [DefinitionSexp(ds[|ds| - 1])]
  }

  lemma {:induction false} SexpsAppend(a: seq<Definition>, b: seq<Definition>)
    requires AllWritable(a) && AllWritable(b)
    ensures AllWritable(a + b) && DefinitionSexps(a + b) == DefinitionSexps(a) + DefinitionSexps(b)
  {
    WritableAppend(a, b);
    if b == [] {
      Unit(a);
      Unit(DefinitionSexps(a));
    } else {
      var init, last := b[..|b| - 1], DefinitionSexp(b[|b| - 1]);
      SexpsAppend(a, init);
      InitOfSum(a, b);
      Associative(DefinitionSexps(a), DefinitionSexps(init), [last]);
    }
  }

  lemma SavableSpells(d: Definition, numeral: Numeral)
    requires Savable(d, numeral) && KeywordsStaySymbols(numeral)
    ensures LinesMarks(DefinitionLines(d).value, numeral) == Flat(DefinitionSexp(d))
  {
    forall c | c in Clauses(d)
      ensures SafeClause(c)
    {
      assert IsCleanClause(c);
    }
    DefinitionSpells(d, numeral);
  }

  lemma {:induction false} AllSpell(ds: seq<Definition>, numeral: Numeral)
    requires AllSavable(ds, numeral) && KeywordsStaySymbols(numeral)
    ensures AllWritable(ds) && LinesMarks(AllLines(ds), numeral) == FlatAll(DefinitionSexps(ds))
  {
    if ds != [] {
      var before, d := ds[..|ds| - 1], ds[|ds| - 1];
      AllSpell(before, numeral);
      SavableSpells(d, numeral);
      LinesMarksAppend(AllLines(before), DefinitionLines(d).value, numeral);
      FlatAllSnoc(DefinitionSexps(before), DefinitionSexp(d));
    }
  }

  lemma {:induction false} LexLinesMarks(lines: seq<string>, k: nat, numeral: Numeral)
    requires k <= |lines|
    ensures Marks(LexLines(lines, k, numeral)) == LinesMarks(lines[k..], numeral)
    decreases |lines| - k
  {
    if k < |lines| {
      LexLinesMarks(lines, k + 1, numeral);
      assert lines[k..] == [lines[k]] + lines[k + 1..];
      LinesMarksAppend([lines[k]], lines[k + 1..], numeral);
      LinesMarksSnoc([], lines[k], numeral);
      assert [] + [lines[k]] == [lines[k]];
      MarksOfLine(Lex(lines[k], numeral), k + 1, LexLines(lines, k + 1, numeral));
    }
  }

  lemma MarksOfLine(tokens: seq<Token>, line: nat, rest: seq<Located>)
    ensures Marks(Locate(tokens, line) + rest) == MarksOf(tokens) + Marks(rest)
  {
  }

  // ---------- handling them files them again ----------

  lemma {:induction false} HandleAppend(defs: Defs, a: seq<Sexp>, b: seq<Sexp>)
    ensures HandleAll(defs, a + b) ==
            match HandleAll(defs, a) case Err(e) => Err(e) case Ok(next) => HandleAll(next, b)
    decreases |b|
  {
    if b == [] {
      assert a + b == a;
    } else {
      var before := b[..|b| - 1];
      HandleAppend(defs, a, before);
      assert (a + b)[..|a + b| - 1] == a + before;
    }
  }

  lemma CommandsDispatch(kind: Kind)
    ensures KindOf(Command(kind)) == Some(kind)
  {
    assert forall k: Kind :: Translate(Command(k)) == MethodName(k);
  }

  lemma HandleOne(defs: Defs, d: Definition)
    requires Writable(d)
    ensures Handle(defs, DefinitionSexp(d)) == Ok(Put(defs, DrawerOf(d.kind), [Kept(d)]))
  {
    CommandsDispatch(d.kind);
    ConstructsKept(d);
  }

  function KeptAll(ds: seq<Definition>): seq<Definition> {
    seq(|ds|, i requires 0 <= i < |ds| => Kept(ds[i]))
  }

  lemma KeptSnoc(ds: seq<Definition>, d: Definition)
    ensures KeptAll(ds + [d]) == KeptAll(ds) + [Kept(d)]
  {
  }

  /** What is left of a set of definitions once it has been written and read. */
  function KeptDefs(defs: Defs): Defs {
    Defs(KeptAll(defs.objects), KeptAll(defs.enums), KeptAll(defs.boxes), KeptAll(defs.pointers))
  }

  predicate AllStorable(ds: seq<Definition>) {
    forall i :: 0 <= i < |ds| ==> Storable(ds[i])
  }

  lemma KeptAllWhen(ds: seq<Definition>)
    ensures KeptAll(ds) == ds <==> AllStorable(ds)
  {
    forall i | 0 <= i < |ds|
      ensures Kept(ds[i]) == ds[i] <==> Storable(ds[i])
    {
      KeptWhen(ds[i]);
    }
    if KeptAll(ds) == ds {
      assert forall i :: 0 <= i < |ds| ==> KeptAll(ds)[i] == ds[i];
    }
  }

  lemma KeptDefsWhen(defs: Defs)
    ensures KeptDefs(defs) == defs <==> AllStorable(Written(defs))
  {
    KeptAllWhen(defs.objects);
    KeptAllWhen(defs.enums);
    KeptAllWhen(defs.boxes);
    KeptAllWhen(defs.pointers);
    StorableSum(defs.objects + defs.enums + defs.boxes, defs.pointers);
    StorableSum(defs.objects + defs.enums, defs.boxes);
    StorableSum(defs.objects, defs.enums);
  }

  lemma StorableSum(a: seq<Definition>, b: seq<Definition>)
    ensures AllStorable(a + b) <==> AllStorable(a) && AllStorable(b)
  {
    if AllStorable(a + b) {
      assert forall i :: 0 <= i < |b| ==> b[i] == (a + b)[|a| + i];
      assert forall i :: 0 <= i < |a| ==> a[i] == (a + b)[i];
    }
  }

  predicate AllIn(ds: seq<Definition>, drawer: Drawer) {
    ds == [] || (AllIn(ds[..|ds| - 1], drawer) && DrawerOf(ds[|ds| - 1].kind) == drawer)
  }

  lemma {:induction false} HandleDrawer(defs: Defs, drawer: Drawer, ds: seq<Definition>, numeral: Numeral)
    requires AllSavable(ds, numeral) && AllIn(ds, drawer)
    ensures AllWritable(ds) && HandleAll(defs, DefinitionSexps(ds)) == Ok(Put(defs, drawer, KeptAll(ds)))
  {
    if ds == [] {
      PutTwice(defs, drawer, [], []);
      assert KeptAll(ds) == [];
    } else {
      var before, d := ds[..|ds| - 1], ds[|ds| - 1];
      HandleDrawer(defs, drawer, before, numeral);
      HandleSnoc(defs, DefinitionSexps(before), DefinitionSexp(d));
      HandleOne(Put(defs, drawer, KeptAll(before)), d);
      PutTwice(defs, drawer, KeptAll(before), [Kept(d)]);
      InitAndLast(ds);
      KeptSnoc(before, d);
    }
  }

  lemma HandleSnoc(defs: Defs, forms: seq<Sexp>, form: Sexp)
    ensures HandleAll(defs, forms + [form]) ==
            match HandleAll(defs, forms) case Err(e) => Err(e) case Ok(next) => Handle(next, form)
  {
    assert (forms + [form])[..|forms|] == forms;
  }

  lemma PutTwice(defs: Defs, drawer: Drawer, a: seq<Definition>, b: seq<Definition>)
    ensures Put(Put(defs, drawer, a), drawer, b) == Put(defs, drawer, a + b)
    ensures Put(defs, drawer, []) == defs
  {
    match drawer {
      case Objects => assert defs.objects + a + b == defs.objects + (a + b) && defs.objects + [] == defs.objects;
      case Enums => assert defs.enums + a + b == defs.enums + (a + b) && defs.enums + [] == defs.enums;
      case Boxes => assert defs.boxes + a + b == defs.boxes + (a + b) && defs.boxes + [] == defs.boxes;
      case Pointers => assert defs.pointers + a + b == defs.pointers + (a + b) && defs.pointers + [] == defs.pointers;
    }
  }

  /** Each list holds definitions of its own kinds. */
  predicate Filed(defs: Defs) {
    AllIn(defs.objects, Objects) && AllIn(defs.enums, Enums) && AllIn(defs.boxes, Boxes) &&
    AllIn(defs.pointers, Pointers)
  }

  lemma HandleWritten(defs: Defs, numeral: Numeral)
    requires Filed(defs) && AllSavable(Written(defs), numeral)
    ensures AllWritable(Written(defs)) && HandleAll(NO_DEFS, DefinitionSexps(Written(defs))) == Ok(KeptDefs(defs))
  {
    var kept := KeptDefs(defs);
    SavableAppend(defs.objects + defs.enums + defs.boxes, defs.pointers, numeral);
    SavableAppend(defs.objects + defs.enums, defs.boxes, numeral);
    SavableAppend(defs.objects, defs.enums, numeral);
    HandleDrawer(NO_DEFS, Objects, defs.objects, numeral);
    PutFirst(kept);
    HandleNext(Defs(kept.objects, [], [], []), Enums, defs.objects, defs.enums, numeral);
    HandleNext(Defs(kept.objects, kept.enums, [], []), Boxes, defs.objects + defs.enums, defs.boxes, numeral);
    HandleNext(Defs(kept.objects, kept.enums, kept.boxes, []), Pointers,
               defs.objects + defs.enums + defs.boxes, defs.pointers, numeral);
  }

  lemma PutFirst(defs: Defs)
    ensures Put(NO_DEFS, Objects, defs.objects) == Defs(defs.objects, [], [], [])
    ensures Put(Defs(defs.objects, [], [], []), Enums, defs.enums) == Defs(defs.objects, defs.enums, [], [])
    ensures Put(Defs(defs.objects, defs.enums, [], []), Boxes, defs.boxes) ==
            Defs(defs.objects, defs.enums, defs.boxes, [])
    ensures Put(Defs(defs.objects, defs.enums, defs.boxes, []), Pointers, defs.pointers) == defs
  {
    assert [] + defs.objects == defs.objects && [] + defs.enums == defs.enums;
    assert [] + defs.boxes == defs.boxes && [] + defs.pointers == defs.pointers;
  }

  /** After the definitions `done` have given `before`, those of one more list follow. */
  lemma HandleNext(before: Defs, drawer: Drawer, done: seq<Definition>, ds: seq<Definition>, numeral: Numeral)
    requires AllWritable(done) && AllSavable(ds, numeral) && AllIn(ds, drawer)
    requires HandleAll(NO_DEFS, DefinitionSexps(done)) == Ok(before)
    ensures AllWritable(done + ds) &&
            HandleAll(NO_DEFS, DefinitionSexps(done + ds)) == Ok(Put(before, drawer, KeptAll(ds)))
  {
    SavableIsWritable(ds, numeral);
    SexpsAppend(done, ds);
    HandleAppend(NO_DEFS, DefinitionSexps(done), DefinitionSexps(ds));
    HandleDrawer(before, drawer, ds, numeral);
  }

  /** Writing a set of definitions as text and parsing the text gives what is kept of them. */
  lemma WrittenLoadsKept(defs: Defs, numeral: Numeral)
    requires Filed(defs) && AllSavable(Written(defs), numeral) && KeywordsStaySymbols(numeral)
    ensures AllWritable(Written(defs))
    ensures Load(NO_DEFS, SplitLines(Join(AllLines(Written(defs)))), numeral) == Ok(KeptDefs(defs))
  {
    var ds := Written(defs);
    AllAreLines(ds, numeral);
    var lines, forest := AllLines(ds), DefinitionSexps(ds);
    SplitJoin(lines);
    AllSpell(ds, numeral);
    LexLinesMarks(lines, 0, numeral);
    assert lines[0..] == lines;
    LinesHaveAtomsOnly(lines, 0, numeral);
    ReaderMeetsGrammar(LexLines(lines, 0, numeral), forest, |lines|);
    HandleWritten(defs, numeral);
  }

  /** It gives back the same definitions exactly when all of them are storable. */
  lemma WrittenLoadsAgainWhen(defs: Defs, numeral: Numeral)
    requires Filed(defs) && AllSavable(Written(defs), numeral) && KeywordsStaySymbols(numeral)
    ensures AllWritable(Written(defs))
    ensures Load(NO_DEFS, SplitLines(Join(AllLines(Written(defs)))), numeral) == Ok(defs)
            <==> AllStorable(Written(defs))
  {
    WrittenLoadsKept(defs, numeral);
    KeptDefsWhen(defs);
  }
}
