/**
 The generated file as a whole: what FileOutput and the writers of codegen/codegen.py put into it from
 the generator's own text and the override files, and that its #line directives are right.
 */
module GeneratedFile {
  import opened Sequences
  import opened TextLines
  import opened Wrappers
  import opened OverrideFiles
  import opened LineMap
  import opened OverrideTable

  /** One thing the generator writes; consecutive pieces of its own text are one `OwnText`. */
  datatype Output = OwnText(text: string) | SlotText(slot: Slot) | HeadersText | BodyText | InitText

  function Resetting(file: string, out: seq<Item>): seq<Item> {
    out + [Directive(Place(file, 1 + LineCount(out) + 1))]
  }

  function FunctionText(file: string, out: seq<Item>, place: Place, data: seq<Glyph>): seq<Item> {
    Resetting(file, out + [Directive(place)] + Copy(data)) + Write("\n\n")
  }

  predicate CanEmit(t: Table, o: Output) {
    o.SlotText? ==> Text(t, o.slot).Some? && o.slot.name in t.startlines
  }

  function Emit(file: string, t: Table, out: seq<Item>, o: Output): seq<Item>
    requires CanEmit(t, o)
  {
    match o
    case OwnText(text) => out + Write(text)
    case SlotText(slot) => FunctionText(file, out, t.startlines[slot.name], Text(t, slot).value)
    case HeadersText => Resetting(file, out + PartItems(t.headers)) + Write("\n\n")
    case BodyText => Resetting(file, out + PartItems(t.body)) + Write("\n\n")
    case InitText => Resetting(file, out + PartItems(t.init) + [Break])
  }

  ghost predicate CanEmitAll(t: Table, os: seq<Output>) {
    forall o :: o in os ==> CanEmit(t, o)
  }

  function Generate(file: string, t: Table, os: seq<Output>): seq<Item>
    requires CanEmitAll(t, os)
  {
    if os == [] then [] else Emit(file, t, Generate(file, t, os[..|os| - 1]), os[|os| - 1])
  }

  // ---------- the writer ----------

  class FileOutput {
    const filename: string
    var fp: seq<Item>
    var lineno: nat

    constructor (filename: string)
      ensures Valid() && this.filename == filename && fp == []
    {
      this.filename := filename;
      fp, lineno := [], 1;
    }

    /** The next character goes to line `lineno` of the file. */
    predicate Valid()
      reads this
    {
      lineno == 1 + LineCount(fp)
    }

    method Put(items: seq<Item>)
      requires Valid()
      modifies this
      ensures Valid() && fp == old(fp) + items
    {
      RunAppend(Beginning(filename), fp, items);
      fp := fp + items;
      lineno := lineno + LineCount(items);
    }

    method SetLine(place: Place)
      requires Valid()
      modifies this
      ensures Valid() && fp == old(fp) + [Directive(place)]
    {
      Put([Directive(place)]);
    }

    method ResetLine()
      requires Valid()
      modifies this
      ensures Valid() && fp == Resetting(filename, old(fp))
    {
      SetLine(Place(filename, lineno + 1));
    }

    method WriteFunction(overrides: Overrides, name: string, data: seq<Glyph>)
      requires Valid() && name in overrides.startlines
      modifies this
      ensures Valid() && fp == FunctionText(filename, old(fp), overrides.startlines[name], data)
    {
      SetLine(overrides.startlines[name]);
      Put(Copy(data));
      ResetLine();
      Put(Write("\n\n"));
    }

    method WriteHeaders(overrides: Overrides)
      requires Valid()
      modifies this
      ensures Valid() && fp == Resetting(filename, old(fp) + overrides.headers) + Write("\n\n")
    {
      Put(overrides.headers);
      ResetLine();
      Put(Write("\n\n"));
    }

    method WriteBody(overrides: Overrides)
      requires Valid()
      modifies this
      ensures Valid() && fp == Resetting(filename, old(fp) + overrides.body) + Write("\n\n")
    {
      Put(overrides.body);
      ResetLine();
      Put(Write("\n\n"));
    }

    method WriteInit(overrides: Overrides)
      requires Valid()
      modifies this
      ensures Valid() && fp == Resetting(filename, old(fp) + overrides.init + [Break])
    {
      Put(overrides.init);
      Put([Break]);
      ResetLine();
    }

    /** Any run of the writers, one output after the other. */
    method WriteAll(overrides: Overrides, ghost t: Table, os: seq<Output>)
      requires Valid() && fp == [] && overrides.Holds(t) && CanEmitAll(t, os)
      modifies this
      ensures Valid() && fp == Generate(filename, t, os)
    {
      for i := 0 to |os|
        invariant Valid() && fp == Generate(filename, t, os[..i])
      {
        assert os[..i + 1][..i] == os[..i];
        assert os[i] in os;
        WriteOne(overrides, t, os[i]);
      }
      assert os[..|os|] == os;
    }

    method WriteOne(overrides: Overrides, ghost t: Table, o: Output)
      requires Valid() && overrides.Holds(t) && CanEmit(t, o)
      modifies this
      ensures Valid() && fp == Emit(filename, t, old(fp), o)
    {
      match o {
        case OwnText(text) => Put(Write(text));
        case SlotText(slot) =>
          var data := overrides.TextOf(slot, t);
          WriteFunction(overrides, slot.name, data);
        case HeadersText => WriteHeaders(overrides);
        case BodyText => WriteBody(overrides);
        case InitText => WriteInit(overrides);
      }
    }
  }

  // ---------- each output keeps the map true ----------

  /** Text of an override section, between its directive and the reset: the map stays true exactly when
      the directive names the right place and the text ends in a blank line start, as the reset has to
      stand at the start of a line (or the numbers happen to agree). */
  lemma FunctionTextIsTrueWhen(file: string, out: seq<Item>, place: Place, data: seq<Glyph>)
    requires TrueMap(file, out) && Synced(file, out)
    ensures TrueMap(file, FunctionText(file, out, place, data)) <==>
            InStep(data, place) &&
            (EndsBlank(data) ||
             Place(place.file, place.line + Newlines(data) + 1) == Place(file, LineCount(out) + Newlines(data) + 3))
    ensures TrueMap(file, FunctionText(file, out, place, data)) ==> Synced(file, FunctionText(file, out, place, data))
  {
    var text := out + [Directive(place)] + Copy(data);
    CopyIsTrueWhenInStep(file, out, place, data);
    if TrueMap(file, text) {
      TextThenReset(file, text, Place(place.file, place.line + Newlines(data)), EndsBlank(data));
    } else {
      StaysWrong(file, text, [Directive(Place(file, 1 + LineCount(text) + 1))], Write("\n\n"));
    }
  }

  /** What is wrong stays wrong, whatever is written behind it. */
  lemma StaysWrong(file: string, out: seq<Item>, more: seq<Item>, rest: seq<Item>)
    requires !TrueMap(file, out)
    ensures !TrueMap(file, out + more + rest)
  {
    TrueMapAppend(file, out, more);
    TrueMapAppend(file, out + more, rest);
  }

  /** A reset and two newlines behind a text that is known by its place. */
  lemma TextThenReset(file: string, text: seq<Item>, at: Place, start: bool)
    requires TrueMap(file, text) && Run(Beginning(file), text) == Cursor(at, start)
    ensures var all := Resetting(file, text) + Write("\n\n");
            && (TrueMap(file, all) <==> start || NextLine(at) == Place(file, 2 + LineCount(text)))
            && (TrueMap(file, all) ==> Synced(file, all))
  {
    ResetKeeps(file, text);
    ResetThenBlank(file, text);
  }

  /** The two newlines after a reset are known by their true lines exactly when the reset worked. */
  lemma ResetThenBlank(file: string, out: seq<Item>)
    requires TrueMap(file, out)
    ensures var reset := Resetting(file, out);
            && (TrueMap(file, reset + Write("\n\n")) <==> Synced(file, reset))
            && (Synced(file, reset) ==> Synced(file, reset + Write("\n\n")))
  {
    var reset := Resetting(file, out);
    ResetKeeps(file, out);
    if Synced(file, reset) {
      WriteKeeps(file, reset, "\n\n");
    }
    TrueMapAppend(file, reset, Write("\n\n"));
    if TrueMap(file, reset + Write("\n\n")) {
      assert TrueNext(file, reset, Write("\n\n"), 0);
      assert Write("\n\n")[..0] == [];
      ResetLeavesLineStart(file, out);
    }
  }

  lemma ResetLeavesLineStart(file: string, out: seq<Item>)
    ensures Run(Beginning(file), Resetting(file, out)).atStart
  {
    var directive := Directive(Place(file, 1 + LineCount(out) + 1));
    RunAppend(Beginning(file), out, [directive]);
    RunOne(Run(Beginning(file), out), directive);
  }

  ghost predicate ChunksInStep(chunks: seq<Chunk>) {
    forall c :: c in chunks ==> InStep(c.text, c.place)
  }

  /** A headers, body or init text: every part brings its own line start. */
  lemma {:induction false} PartsAreTrue(file: string, out: seq<Item>, chunks: seq<Chunk>)
    requires TrueMap(file, out) && ChunksInStep(chunks)
    ensures TrueMap(file, out + PartItems(chunks))
    ensures var cur := Run(Beginning(file), out + PartItems(chunks));
            if chunks == [] then cur == Run(Beginning(file), out) else
            var last := chunks[|chunks| - 1];
            cur.atStart == EndsBlank(last.text) && cur.place.file == last.place.file
  {
    if chunks == [] {
      assert out + PartItems(chunks) == out;
    } else {
      var before, c := chunks[..|chunks| - 1], chunks[|chunks| - 1];
      PartsAreTrue(file, out, before);
      var start := out + PartItems(before);
      BreakKeeps(file, start);
      CopyIsTrueWhenInStep(file, start + [Break], c.place, c.text);
      PartsRegroup(out, PartItems(before), c);
    }
  }

  lemma PartsRegroup(out: seq<Item>, parts: seq<Item>, c: Chunk)
    ensures out + (parts + PartItem(c)) == out + parts + [Break] + [Directive(c.place)] + Copy(c.text)
  {
    assert PartItem(c) == [Break] + [Directive(c.place)] + Copy(c.text);
  }

  lemma BreakKeeps(file: string, out: seq<Item>)
    requires TrueMap(file, out)
    ensures TrueMap(file, out + [Break]) && Run(Beginning(file), out + [Break]).atStart
  {
    RunAppend(Beginning(file), out, [Break]);
    RunOne(Run(Beginning(file), out), Break);
    TrueMapAppend(file, out, [Break]);
  }

  // ---------- whole files ----------

  predicate LastEndsBlank(chunks: seq<Chunk>) {
    chunks == [] || EndsBlank(chunks[|chunks| - 1].text)
  }

  /** What an output needs: the text of a slot starts a line, has its own starting line and ends at the
      start of a line, unless it is empty; headers and body end at the start of a line.  `start` says
      whether the output before it ended at the start of a line. */
  predicate Right(es: seq<Entry>, t: Table, o: Output, start: bool) {
    match o
    case OwnText(_) => true
    case SlotText(slot) =>
      (match LastFor(es, slot)
       case None => false
       case Some(e) =>
         e.chunk.text == [] ||
         (start && LastNamed(es, slot.name).Some? && LastNamed(es, slot.name).value.chunk.place == e.chunk.place
          && EndsBlank(e.chunk.text)))
    case HeadersText => LastEndsBlank(t.headers)
    case BodyText => LastEndsBlank(t.body)
    case InitText => true
  }

  /** Do these outputs end at the start of a line? */
  predicate EndsAtStart(os: seq<Output>) {
    if os == [] then true else
    match os[|os| - 1]
    case OwnText(text) => StartsLine(text, EndsAtStart(os[..|os| - 1]))
    case _ => true
  }

  predicate AllRight(es: seq<Entry>, t: Table, os: seq<Output>) {
    os == [] || (AllRight(es, t, os[..|os| - 1]) && Right(es, t, os[|os| - 1], EndsAtStart(os[..|os| - 1])))
  }

  /** The generated file does not go by the name of an override file. */
  predicate OwnName(file: string, es: seq<Entry>) {
    forall e :: e in es ==> e.chunk.place.file != file
  }

  ghost predicate ChunksFrom(chunks: seq<Chunk>, es: seq<Entry>) {
    forall c :: c in chunks ==> IsChunkOf(c, es)
  }

  predicate IsChunkOf(c: Chunk, es: seq<Entry>) {
    exists e :: e in es && e.chunk == c
  }

  ghost predicate PartsFrom(t: Table, es: seq<Entry>) {
    ChunksFrom(t.headers, es) && ChunksFrom(t.body, es) && ChunksFrom(t.init, es)
  }

  lemma ChunksSnoc(chunks: seq<Chunk>, chunk: Chunk, es: seq<Entry>)
    requires ChunksFrom(chunks, es) && IsChunkOf(chunk, es)
    ensures ChunksFrom(chunks + [chunk], es)
  {
  }

  lemma FileKeepsParts(t: Table, e: Entry, es: seq<Entry>)
    requires PartsFrom(t, es) && e in es && File(t, e).Ok?
    ensures PartsFrom(File(t, e).value, es)
  {
    match e.target {
      case Headers => ChunksSnoc(t.headers, e.chunk, es);
      case Body => ChunksSnoc(t.body, e.chunk, es);
      case Init => ChunksSnoc(t.init, e.chunk, es);
      case Named(slot) => StoreKeepsRest(t, slot, e.chunk.text);
      case Elsewhere =>
    }
  }

  lemma MoreEntries(t: Table, es: seq<Entry>, e: Entry)
    requires PartsFrom(t, es)
    ensures PartsFrom(t, es + [e])
  {
    forall c | IsChunkOf(c, es)
      ensures IsChunkOf(c, es + [e])
    {
      var d :| d in es && d.chunk == c;
      assert d in es + [e];
    }
  }

  lemma {:induction false} PartsAreFiled(es: seq<Entry>)
    requires FileAll(es).Ok?
    ensures PartsFrom(FileAll(es).value, es)
  {
    if es != [] {
      var before, e := es[..|es| - 1], es[|es| - 1];
      assert es == before + [e];
      PartsAreFiled(before);
      MoreEntries(FileAll(before).value, before, e);
      FileKeepsParts(FileAll(before).value, e, es);
    }
  }

  lemma SlotIsFiled(es: seq<Entry>, slot: Slot)
    requires FileAll(es).Ok? && CanEmit(FileAll(es).value, SlotText(slot))
    ensures LastFor(es, slot).Some? && LastFor(es, slot).value in es
    ensures LastNamed(es, slot.name).Some? && LastNamed(es, slot.name).value in es
    ensures var t := FileAll(es).value;
            && Text(t, slot) == Some(LastFor(es, slot).value.chunk.text)
            && t.startlines[slot.name] == LastNamed(es, slot.name).value.chunk.place
  {
    LookupsAre(es, slot);
    StartLinesAre(es, slot.name);
    LastAreThere(es, slot);
  }

  /** After this output the map is true, and the cursor where the output is. */
  ghost predicate Keeps(file: string, out: seq<Item>, start: bool) {
    TrueMap(file, out) && Placed(file, out) && Run(Beginning(file), out).atStart == start
  }

  lemma SlotIsTrueWhen(file: string, es: seq<Entry>, t: Table, out: seq<Item>, slot: Slot)
    requires FileAll(es) == Ok(t) && AllInStep(es) && CanEmit(t, SlotText(slot)) && Keeps(file, out, true)
    ensures var next := Emit(file, t, out, SlotText(slot));
            && (Right(es, t, SlotText(slot), true) ==> Keeps(file, next, true))
            && (OwnName(file, es) && TrueMap(file, next) ==> Right(es, t, SlotText(slot), true))
  {
    SlotIsFiled(es, slot);
    StartLineIsRightWhen(es, slot);
    FunctionTextIsTrueWhen(file, out, t.startlines[slot.name], Text(t, slot).value);
  }

  /** The directive before the text is overlooked: that does no harm exactly when there is no text. */
  lemma LateSlotIsTrueWhen(file: string, es: seq<Entry>, t: Table, out: seq<Item>, slot: Slot)
    requires FileAll(es) == Ok(t) && AllInStep(es) && CanEmit(t, SlotText(slot)) && Keeps(file, out, false)
    ensures var next := Emit(file, t, out, SlotText(slot));
            && (Right(es, t, SlotText(slot), false) ==> Keeps(file, next, true))
            && (OwnName(file, es) && TrueMap(file, next) ==> Right(es, t, SlotText(slot), false))
  {
    SlotIsFiled(es, slot);
    var place, data := t.startlines[slot.name], Text(t, slot).value;
    var start := out + [Directive(place)];
    LateDirective(file, out, place);
    if data == [] {
      assert start + Copy(data) == start;
      ResetKeeps(file, start);
      ResetThenBlank(file, start);
    } else if OwnName(file, es) {
      assert InStepAt(data, LastFor(es, slot).value.chunk.place, 0);
      StrayText(file, start, data, [Directive(Place(file, 1 + LineCount(start + Copy(data)) + 1))], Write("\n\n"));
    }
  }

  /** Text whose first character is known by a wrong place. */
  lemma StrayText(file: string, out: seq<Item>, data: seq<Glyph>, more: seq<Item>, rest: seq<Item>)
    requires data != [] && data[0].origin != Run(Beginning(file), out).place
    ensures !TrueMap(file, out + Copy(data) + more + rest)
  {
    var all := out + Copy(data) + more + rest;
    assert all[..|out|] == out && all[|out|] == Copied(data[0]);
    assert !TrueAt(file, all, |out|);
  }

  lemma PartsAreTrueWhen(file: string, es: seq<Entry>, out: seq<Item>, chunks: seq<Chunk>, start: bool)
    requires Keeps(file, out, start) && AllInStep(es) && ChunksFrom(chunks, es)
    ensures var all := Resetting(file, out + PartItems(chunks)) + Write("\n\n");
            && (LastEndsBlank(chunks) ==> Keeps(file, all, true))
            && (OwnName(file, es) && TrueMap(file, all) ==> LastEndsBlank(chunks))
  {
    PartsAreTrue(file, out, chunks);
    var text := out + PartItems(chunks);
    ResetKeeps(file, text);
    ResetThenBlank(file, text);
    if chunks == [] {
      assert text == out;
    } else {
      assert IsChunkOf(chunks[|chunks| - 1], es);
    }
  }

  lemma InitIsTrue(file: string, out: seq<Item>, chunks: seq<Chunk>)
    requires TrueMap(file, out) && ChunksInStep(chunks)
    ensures Keeps(file, Resetting(file, out + PartItems(chunks) + [Break]), true)
  {
    PartsAreTrue(file, out, chunks);
    BreakKeeps(file, out + PartItems(chunks));
    ResetKeeps(file, out + PartItems(chunks) + [Break]);
  }

  lemma EmitIsTrueWhen(file: string, es: seq<Entry>, t: Table, out: seq<Item>, o: Output, start: bool)
    requires FileAll(es) == Ok(t) && AllInStep(es) && CanEmit(t, o) && Keeps(file, out, start)
    ensures var next := Emit(file, t, out, o);
            && (Right(es, t, o, start) ==> Keeps(file, next, if o.OwnText? then StartsLine(o.text, start) else true))
            && (OwnName(file, es) && TrueMap(file, next) ==> Right(es, t, o, start))
  {
    PartsAreFiled(es);
    match o {
      case OwnText(text) => WriteKeeps(file, out, text);
      case SlotText(slot) =>
        if start {
          SlotIsTrueWhen(file, es, t, out, slot);
        } else {
          LateSlotIsTrueWhen(file, es, t, out, slot);
        }
      case HeadersText => PartsAreTrueWhen(file, es, out, t.headers, start);
      case BodyText => PartsAreTrueWhen(file, es, out, t.body, start);
      case InitText => InitIsTrue(file, out, t.init);
    }
  }

  lemma EmitOnlyAdds(file: string, t: Table, out: seq<Item>, o: Output)
    requires CanEmit(t, o) && TrueMap(file, Emit(file, t, out, o))
    ensures TrueMap(file, out)
  {
    var next := Emit(file, t, out, o);
    assert out == next[..|out|] && next == out + next[|out|..];
    TrueMapAppend(file, out, next[|out|..]);
  }

  /** Whatever the override files and whatever is written in whatever order: every character copied from
      an override file is known to the C compiler by its file and line there, and every character of the
      generator by its line in the generated file, if every output is right where it stands; and only
      then, unless the generated file goes by the name of an override file. */
  lemma {:induction false} GeneratedMapIsTrueWhen(file: string, es: seq<Entry>, os: seq<Output>)
    requires FileAll(es).Ok? && AllInStep(es) && CanEmitAll(FileAll(es).value, os)
    ensures var t, out := FileAll(es).value, Generate(file, FileAll(es).value, os);
            && (AllRight(es, t, os) ==> Keeps(file, out, EndsAtStart(os)))
            && (OwnName(file, es) ==> (TrueMap(file, out) <==> AllRight(es, t, os)))
  {
    if os != [] {
      var before, o, t := os[..|os| - 1], os[|os| - 1], FileAll(es).value;
      assert o in os && forall p :: p in before ==> p in os;
      GeneratedMapIsTrueWhen(file, es, before);
      var out := Generate(file, t, before);
      if TrueMap(file, Emit(file, t, out, o)) {
        EmitOnlyAdds(file, t, out, o);
      }
      if AllRight(es, t, before) {
        EmitIsTrueWhen(file, es, t, out, o, EndsAtStart(before));
      }
    }
  }

  // ---------- what is in the file ----------

  /** The characters of override files, in their order, and those of the generator. */
  function CopiedGlyphs(items: seq<Item>): seq<Glyph> {
    if items == [] then [] else
    CopiedGlyphs(items[..|items| - 1]) + match items[|items| - 1] case Copied(g) => [g] case _ => []
  }

  function OwnChars(items: seq<Item>): string {
    if items == [] then "" else
    OwnChars(items[..|items| - 1]) + match items[|items| - 1] case Own(c) => [c] case _ => ""
  }

  /** The texts of all sections of a kind. */
  function TextsOf(es: seq<Entry>, target: Target): seq<Glyph> {
    if es == [] then [] else
    TextsOf(es[..|es| - 1], target) + if es[|es| - 1].target == target then es[|es| - 1].chunk.text else []
  }

  /** What an output brings of the override files, and what of its own. */
  function Asked(es: seq<Entry>, o: Output): seq<Glyph> {
    match o
    case OwnText(_) => []
    case SlotText(slot) => if LastFor(es, slot).Some? then LastFor(es, slot).value.chunk.text else []
    case HeadersText => TextsOf(es, Headers)
    case BodyText => TextsOf(es, Body)
    case InitText => TextsOf(es, Init)
  }

  function OwnPart(o: Output): string {
    match o case OwnText(text) => text case InitText => "" case _ => "\n\n"
  }

  function AllAsked(es: seq<Entry>, os: seq<Output>): seq<Glyph> {
    if os == [] then [] else AllAsked(es, os[..|os| - 1]) + Asked(es, os[|os| - 1])
  }

  function AllOwn(os: seq<Output>): string {
    if os == [] then "" else AllOwn(os[..|os| - 1]) + OwnPart(os[|os| - 1])
  }

  lemma {:induction false} ContentAppend(a: seq<Item>, b: seq<Item>)
    ensures CopiedGlyphs(a + b) == CopiedGlyphs(a) + CopiedGlyphs(b) && OwnChars(a + b) == OwnChars(a) + OwnChars(b)
  {
    if b == [] {
      Unit(a);
    } else {
      ContentAppend(a, b[..|b| - 1]);
      InitOfSum(a, b);
    }
  }

  lemma {:induction false} ContentOfCopy(gs: seq<Glyph>)
    ensures CopiedGlyphs(Copy(gs)) == gs && OwnChars(Copy(gs)) == ""
  {
    if gs != [] {
      ContentOfCopy(gs[..|gs| - 1]);
      assert Copy(gs)[..|gs| - 1] == Copy(gs[..|gs| - 1]);
    }
  }

  lemma {:induction false} ContentOfWrite(text: string)
    ensures OwnChars(Write(text)) == text && CopiedGlyphs(Write(text)) == []
  {
    if text != "" {
      ContentOfWrite(text[..|text| - 1]);
      assert Write(text)[..|text| - 1] == Write(text[..|text| - 1]);
    }
  }

  lemma ContentOfDirective(place: Place)
    ensures CopiedGlyphs([Directive(place)]) == [] && OwnChars([Directive(place)]) == ""
    ensures CopiedGlyphs([Break]) == [] && OwnChars([Break]) == ""
  {
    assert [Directive(place)][..0] == [] && [Break][..0] == [];
  }

  function ChunkTexts(chunks: seq<Chunk>): seq<Glyph> {
    if chunks == [] then [] else ChunkTexts(chunks[..|chunks| - 1]) + chunks[|chunks| - 1].text
  }

  lemma ContentOfPart(c: Chunk)
    ensures CopiedGlyphs(PartItem(c)) == c.text && OwnChars(PartItem(c)) == ""
  {
    assert PartItem(c) == [Break] + ([Directive(c.place)] + Copy(c.text));
    ContentAppend([Break], [Directive(c.place)] + Copy(c.text));
    ContentAppend([Directive(c.place)], Copy(c.text));
    ContentOfDirective(c.place);
    ContentOfCopy(c.text);
  }

  lemma {:induction false} ContentOfParts(chunks: seq<Chunk>)
    ensures CopiedGlyphs(PartItems(chunks)) == ChunkTexts(chunks) && OwnChars(PartItems(chunks)) == ""
  {
    if chunks != [] {
      var before, c := chunks[..|chunks| - 1], chunks[|chunks| - 1];
      ContentOfParts(before);
      ContentAppend(PartItems(before), PartItem(c));
      ContentOfPart(c);
    }
  }

  /** The chunks of a kind. */
  function PartsOf(t: Table, target: Target): seq<Chunk> {
    match target case Headers => t.headers case Body => t.body case Init => t.init case _ => []
  }

  lemma {:induction false} PartsHoldTexts(es: seq<Entry>, target: Target)
    requires FileAll(es).Ok? && (target.Headers? || target.Body? || target.Init?)
    ensures ChunkTexts(PartsOf(FileAll(es).value, target)) == TextsOf(es, target)
  {
    if es != [] {
      var before, e := es[..|es| - 1], es[|es| - 1];
      PartsHoldTexts(before, target);
      var t := FileAll(before).value;
      FilesPart(t, e, target);
      if e.target == target {
        ChunkTextsSnoc(PartsOf(t, target), e.chunk);
      } else {
        Unit(TextsOf(before, target));
      }
    }
  }

  /** An entry is added to the parts of its kind, and to no other. */
  lemma FilesPart(t: Table, e: Entry, target: Target)
    requires File(t, e).Ok? && (target.Headers? || target.Body? || target.Init?)
    ensures PartsOf(File(t, e).value, target) ==
            if e.target == target then PartsOf(t, target) + [e.chunk] else PartsOf(t, target)
  {
    if e.target.Named? {
      StoreKeepsRest(t, e.target.slot, e.chunk.text);
    }
  }

  lemma ChunkTextsSnoc(chunks: seq<Chunk>, chunk: Chunk)
    ensures ChunkTexts(chunks + [chunk]) == ChunkTexts(chunks) + chunk.text
  {
    InitOfSnoc(chunks, chunk);
  }

  lemma ContentOfReset(file: string, out: seq<Item>)
    ensures CopiedGlyphs(Resetting(file, out)) == CopiedGlyphs(out) && OwnChars(Resetting(file, out)) == OwnChars(out)
  {
    var directive := Directive(Place(file, 1 + LineCount(out) + 1));
    ContentAppend(out, [directive]);
    ContentOfDirective(directive.place);
  }

  /** A text, a reset and two newlines behind it. */
  lemma ContentOfText(file: string, out: seq<Item>, text: seq<Item>)
    ensures var all := Resetting(file, out + text) + Write("\n\n");
            && CopiedGlyphs(all) == CopiedGlyphs(out) + CopiedGlyphs(text)
            && OwnChars(all) == OwnChars(out) + OwnChars(text) + "\n\n"
  {
    ContentAppend(out, text);
    ContentOfReset(file, out + text);
    ContentAppend(Resetting(file, out + text), Write("\n\n"));
    ContentOfWrite("\n\n");
  }

  lemma ContentOfSlot(file: string, out: seq<Item>, place: Place, data: seq<Glyph>)
    ensures CopiedGlyphs(FunctionText(file, out, place, data)) == CopiedGlyphs(out) + data
    ensures OwnChars(FunctionText(file, out, place, data)) == OwnChars(out) + "\n\n"
  {
    SlotShape(file, out, place, data);
    ContentOfPlaced(place, data);
    ContentOfText(file, out, [Directive(place)] + Copy(data));
    Unit(OwnChars(out));
  }

  lemma ContentOfPlaced(place: Place, data: seq<Glyph>)
    ensures CopiedGlyphs([Directive(place)] + Copy(data)) == data && OwnChars([Directive(place)] + Copy(data)) == ""
  {
    ContentAppend([Directive(place)], Copy(data));
    ContentOfDirective(place);
    ContentOfCopy(data);
  }

  lemma SlotShape(file: string, out: seq<Item>, place: Place, data: seq<Glyph>)
    ensures FunctionText(file, out, place, data) ==
            Resetting(file, out + ([Directive(place)] + Copy(data))) + Write("\n\n")
  {
    Associative(out, [Directive(place)], Copy(data));
  }

  lemma ContentOfPartText(file: string, out: seq<Item>, chunks: seq<Chunk>)
    ensures var all := Resetting(file, out + PartItems(chunks)) + Write("\n\n");
            CopiedGlyphs(all) == CopiedGlyphs(out) + ChunkTexts(chunks) && OwnChars(all) == OwnChars(out) + "\n\n"
  {
    ContentOfText(file, out, PartItems(chunks));
    ContentOfParts(chunks);
    Unit(OwnChars(out));
  }

  lemma ContentOfInit(file: string, out: seq<Item>, chunks: seq<Chunk>)
    ensures var all := Resetting(file, out + PartItems(chunks) + [Break]);
            CopiedGlyphs(all) == CopiedGlyphs(out) + ChunkTexts(chunks) && OwnChars(all) == OwnChars(out)
  {
    ContentOfReset(file, out + PartItems(chunks) + [Break]);
    ContentAppend(out + PartItems(chunks), [Break]);
    ContentAppend(out, PartItems(chunks));
    ContentOfParts(chunks);
    ContentOfDirective(Place(file, 0));
  }

  lemma ContentOfEmit(file: string, es: seq<Entry>, out: seq<Item>, o: Output)
    requires FileAll(es).Ok? && CanEmit(FileAll(es).value, o)
    ensures var next := Emit(file, FileAll(es).value, out, o);
            CopiedGlyphs(next) == CopiedGlyphs(out) + Asked(es, o) && OwnChars(next) == OwnChars(out) + OwnPart(o)
  {
    var t := FileAll(es).value;
    PartsHoldTexts(es, Headers);
    PartsHoldTexts(es, Body);
    PartsHoldTexts(es, Init);
    match o {
      case OwnText(text) =>
        ContentAppend(out, Write(text));
        ContentOfWrite(text);
      case SlotText(slot) =>
        SlotIsFiled(es, slot);
        ContentOfSlot(file, out, t.startlines[slot.name], Text(t, slot).value);
      case HeadersText =>
        ContentOfPartText(file, out, t.headers);
      case BodyText =>
        ContentOfPartText(file, out, t.body);
      case InitText => ContentOfInit(file, out, t.init);
    }
  }

  /** Only a text of the table can be missing, and it is when nothing was filed under its slot. */
  lemma CanEmitWhen(es: seq<Entry>, o: Output)
    requires FileAll(es).Ok?
    ensures CanEmit(FileAll(es).value, o) <==>
            (o.SlotText? ==> exists j :: 0 <= j < |es| && es[j].target == Named(o.slot))
  {
    if o.SlotText? {
      LookupsAre(es, o.slot);
      StartLinesAre(es, o.slot.name);
      LastForExists(es, o.slot);
      if LastFor(es, o.slot).Some? {
        LastAreThere(es, o.slot);
      }
    }
  }

  /** The file holds the texts that were asked for, all of them, in the order they were asked for, and the
      generator's own text with two newlines behind every text but that of init. */
  lemma {:induction false} GeneratedHolds(file: string, es: seq<Entry>, os: seq<Output>)
    requires FileAll(es).Ok? && CanEmitAll(FileAll(es).value, os)
    ensures var out := Generate(file, FileAll(es).value, os);
            CopiedGlyphs(out) == AllAsked(es, os) && OwnChars(out) == AllOwn(os)
  {
    if os != [] {
      var before, o := os[..|os| - 1], os[|os| - 1];
      assert o in os && forall p :: p in before ==> p in os;
      GeneratedHolds(file, es, before);
      ContentOfEmit(file, es, Generate(file, FileAll(es).value, before), o);
    }
  }

  // ---------- two methods of one name ----------

  function DefineLine(klass: string, name: string): string {
    "define" + (" " + (klass + ("." + name)))
  }

  predicate IsPlainName(name: string) {
    IsWordOnly(name) && '.' !in name
  }

  /** A section of two lines that defines a method. */
  predicate DefinesAt(file: SourceFile, k: nat, klass: string, name: string) {
    && k + 2 <= |file.lines| && file.lines[k] == DefineLine(klass, name) + "\n" && !IsSeparator(file.lines[k + 1])
    && IsPlainName(klass) && IsPlainName(name)
  }

  /** An override file with a method `name` for two classes, each with a text of one line. */
  predicate DefinesTwice(file: SourceFile, a: string, b: string, name: string) {
    |file.lines| == 5 && IsSeparator(file.lines[2]) && DefinesAt(file, 0, a, name) && DefinesAt(file, 3, b, name)
  }

  /** The entry of a method whose text is one line. */
  function MethodEntry(klass: string, name: string, line: string, place: Place): Entry {
    Entry(Named(Method(klass, name)), Chunk(place, Tag(line, place)))
  }

  lemma TwoMethodEntries(file: SourceFile, a: string, b: string, name: string)
    requires DefinesTwice(file, a, b, name)
    ensures Entries(Sections(file, 0)) == [MethodEntry(a, name, file.lines[1], Place(file.name, 2)),
                                           MethodEntry(b, name, file.lines[4], Place(file.name, 5))]
  {
    MethodSection(file, 0, a, name);
    MethodSection(file, 3, b, name);
    TwoSections(file);
    TwoEntries(file, MethodEntry(a, name, file.lines[1], Place(file.name, 2)),
               MethodEntry(b, name, file.lines[4], Place(file.name, 5)));
  }

  /** The heading names a method, and is no separator. */
  lemma DefinesMethod(klass: string, name: string)
    requires IsPlainName(klass) && IsPlainName(name)
    ensures Aim(Words(DefineLine(klass, name))) == Named(Method(klass, name))
    ensures '\n' !in DefineLine(klass, name) && !IsSeparator(DefineLine(klass, name) + "\n")
  {
    var full := klass + ("." + name);
    WordsOfTwo("define", full);
    DotIs(klass, name);
    assert full[..|klass|] == klass && full[|klass| + 1..] == name;
    assert (DefineLine(klass, name) + "\n")[0] == 'd';
  }

  lemma MethodSection(file: SourceFile, k: nat, klass: string, name: string)
    requires DefinesAt(file, k, klass, name)
    ensures !IsSeparator(file.lines[k]) && !IsSeparator(file.lines[k + 1])
    ensures EntryOf(Piece(file, k, k + 2)) == MethodEntry(klass, name, file.lines[k + 1], Place(file.name, k + 2))
  {
    DefinesMethod(klass, name);
    TwoLineSection(file, k, DefineLine(klass, name));
  }

  lemma TwoSections(file: SourceFile)
    requires |file.lines| == 5 && IsSeparator(file.lines[2])
    requires !IsSeparator(file.lines[0]) && !IsSeparator(file.lines[1])
    requires !IsSeparator(file.lines[3]) && !IsSeparator(file.lines[4])
    ensures Sections(file, 0) == [Piece(file, 0, 2), Piece(file, 3, 5)]
  {
    NextSeparatorIs(file.lines, 0, 2);
    NextSeparatorIs(file.lines, 3, 5);
    assert Sections(file, 3) == [Piece(file, 3, 5)] + [];
    assert Sections(file, 0) == [Piece(file, 0, 2)] + Sections(file, 3);
  }

  lemma TwoEntries(file: SourceFile, first: Entry, second: Entry)
    requires |file.lines| == 5 && Sections(file, 0) == [Piece(file, 0, 2), Piece(file, 3, 5)]
    requires EntryOf(Piece(file, 0, 2)) == first && EntryOf(Piece(file, 3, 5)) == second
    ensures Entries(Sections(file, 0)) == [first, second]
  {
  }

  /** Two classes that define a method of the same name share one starting line, the later one: the
      text of the first class is then numbered wrongly. */
  lemma MethodsOfOneNameClash(out: string, file: SourceFile, a: string, b: string, name: string)
    requires DefinesTwice(file, a, b, name) && a != b && file.lines[1] != ""
    ensures var filed, text := FileAll(Entries(Sections(file, 0))), Tag(file.lines[1], Place(file.name, 2));
            && filed.Ok? && Text(filed.value, Method(a, name)) == Some(text)
            && StartLine(filed.value, name) == Some(Place(file.name, 5))
            && !TrueMap(out, FunctionText(out, [], Place(file.name, 5), text))
  {
    TwoMethodEntries(file, a, b, name);
    var es := Entries(Sections(file, 0));
    LaterLineWins(es, a, b, name);
    var text := Tag(file.lines[1], Place(file.name, 2));
    assert !InStepAt(text, Place(file.name, 5), 0);
    FunctionTextIsTrueWhen(out, [], Place(file.name, 5), text);
  }

  lemma LaterLineWins(es: seq<Entry>, a: string, b: string, name: string)
    requires |es| == 2 && es[0].target == Named(Method(a, name)) && es[1].target == Named(Method(b, name)) && a != b
    ensures FileAll(es).Ok? && Text(FileAll(es).value, Method(a, name)) == Some(es[0].chunk.text)
    ensures StartLine(FileAll(es).value, name) == Some(es[1].chunk.place)
  {
    assert es[..1] == [es[0]] && [es[0]][..0] == [];
    assert FileAll([es[0]]) == File(EMPTY, es[0]);
    assert FileAll(es) == File(FileAll([es[0]]).value, es[1]);
    FileThenText(EMPTY, es[0], Method(a, name));
    FileThenText(FileAll([es[0]]).value, es[1], Method(a, name));
  }
}
