/**
 What the sections of override files are filed as (__parse_override of codegen/override.py), and under
 which names their starting lines are found again.
 */
module OverrideTable {
  import opened Wrappers
  import opened TextLines
  import opened OverrideFiles
  import opened LineMap

  /** Where the text of a section can be looked up. */
  datatype Slot =
    | Replacement(name: string)
    | Attribute(name: string)
    | TypeSlot(name: string)
    | Method(klass: string, name: string)
    | Function(name: string)

  datatype Chunk = Chunk(place: Place, text: seq<Glyph>)

  datatype Target = Named(slot: Slot) | Headers | Body | Init | Elsewhere | Faulty(error: ParseError)

  /** A call of __parse_override, with its first line taken apart. */
  datatype Entry = Entry(target: Target, chunk: Chunk)

  datatype ParseError = IndexError | RuntimeError | ValueError

  type Texts = map<string, seq<Glyph>>

  datatype Table = Table(
    overrides: Texts, overrideAttrs: Texts, overrideSlots: Texts, defines: map<string, Texts>, functions: Texts,
    startlines: map<string, Place>, headers: seq<Chunk>, body: seq<Chunk>, init: seq<Chunk>)

  const EMPTY := Table(map[], map[], map[], map[], map[], map[], [], [], [])

  // ---------- the first line ----------

  function WordLength(s: string): (n: nat)
    ensures n <= |s|
    ensures s != "" && !IsSpace(s[0]) ==> n > 0
  {
    if s == "" || IsSpace(s[0]) then 0 else 1 + WordLength(s[1..])
  }

  function Words(s: string): seq<string>
    decreases |s|
  {
    if s == "" then []
    else if IsSpace(s[0]) then Words(s[1..])
    else [s[..WordLength(s)]] + Words(s[WordLength(s)..])
  }

  function Chars(gs: seq<Glyph>): string {
    seq(|gs|, i requires 0 <= i < |gs| => gs[i].c)
  }

  /** The index of the first newline, or the length. */
  function FirstLine(gs: seq<Glyph>): (n: nat)
    ensures n <= |gs|
    ensures forall i :: 0 <= i < n ==> gs[i].c != '\n'
    ensures n < |gs| ==> gs[n].c == '\n'
  {
    if gs == [] || gs[0].c == '\n' then 0 else 1 + FirstLine(gs[1..])
  }

  function Heading(s: Section): seq<string> {
    Words(Chars(s.glyphs[..FirstLine(s.glyphs)]))
  }

  function Rest(s: Section): Chunk {
    var n := FirstLine(s.glyphs);
    Chunk(NextLine(s.start), if n < |s.glyphs| then s.glyphs[n + 1..] else [])
  }

  function Dot(s: string): (n: nat)
    ensures n <= |s|
  {
    if s == "" || s[0] == '.' then 0 else 1 + Dot(s[1..])
  }

  /** The command of a section.  Commands that keep no text, also unknown ones, go Elsewhere. */
  function Aim(words: seq<string>): Target {
    if words == [] then Faulty(IndexError) else
    var command := words[0];
    if command == "override" then if |words| < 2 then Faulty(IndexError) else Named(Replacement(words[1]))
    else if command == "override-attr" then if |words| < 2 then Faulty(IndexError) else Named(Attribute(words[1]))
    else if command == "override-slot" then if |words| < 2 then Faulty(IndexError) else Named(TypeSlot(words[1]))
    else if command == "define" then
      if |words| < 2 then Faulty(IndexError) else
      var n := Dot(words[1]);
      Named(if n < |words[1]| then Method(words[1][..n], words[1][n + 1..]) else Function(words[1]))
    else if command == "headers" then Headers
    else if command == "body" then Body
    else if command == "init" then Init
    else if command == "modulename" then if |words| < 2 then Faulty(IndexError) else Elsewhere
    else if command == "new-constructor" then if |words| != 2 then Faulty(ValueError) else Elsewhere
    else Elsewhere
  }

  function EntryOf(s: Section): Entry {
    Entry(Aim(Heading(s)), Rest(s))
  }

  function Entries(sections: seq<Section>): seq<Entry> {
    seq(|sections|, i requires 0 <= i < |sections| => EntryOf(sections[i]))
  }

  // ---------- how headings read ----------

  predicate IsWordOnly(w: string) {
    w != "" && forall i :: 0 <= i < |w| ==> !IsSpace(w[i])
  }

  lemma {:induction false} WordLengthIs(w: string, rest: string)
    requires forall i :: 0 <= i < |w| ==> !IsSpace(w[i])
    requires rest == "" || IsSpace(rest[0])
    ensures WordLength(w + rest) == |w|
  {
    if w == "" {
      assert w + rest == rest;
    } else {
      assert (w + rest)[1..] == w[1..] + rest;
      WordLengthIs(w[1..], rest);
    }
  }

  lemma OneWord(w: string)
    requires IsWordOnly(w)
    ensures Words(w) == [w]
  {
    WordLengthIs(w, "");
    assert w + "" == w && w[..|w|] == w && w[|w|..] == "";
  }

  lemma WordsOfTwo(a: string, b: string)
    requires IsWordOnly(a) && IsWordOnly(b)
    ensures Words(a + (" " + b)) == [a, b]
  {
    var s := a + (" " + b);
    WordLengthIs(a, " " + b);
    assert s[0] == a[0] && s[..|a|] == a && s[|a|..] == " " + b;
    assert (" " + b)[1..] == b;
    OneWord(b);
  }

  lemma {:induction false} DotIs(k: string, rest: string)
    requires '.' !in k
    ensures Dot(k + ("." + rest)) == |k|
  {
    var s := k + ("." + rest);
    if k == "" {
      assert s[0] == '.';
    } else {
      assert s[1..] == k[1..] + ("." + rest) && s[0] == k[0];
      DotIs(k[1..], rest);
    }
  }

  /** The section of two lines at index `a`: its heading, and the text below it. */
  lemma TwoLineSection(file: SourceFile, a: nat, heading: string)
    requires a + 2 <= |file.lines| && file.lines[a] == heading + "\n" && '\n' !in heading
    ensures var place := Place(file.name, a + 2);
            EntryOf(Piece(file, a, a + 2)) == Entry(Aim(Words(heading)), Chunk(place, Tag(file.lines[a + 1], place)))
  {
    var head, text := Tag(file.lines[a], Place(file.name, a + 1)), Tag(file.lines[a + 1], Place(file.name, a + 2));
    var gs := Stretch(file, a, a + 2);
    assert Stretch(file, a, a + 1) == [] + head == head;
    assert gs == head + text;
    FirstLineIs(gs, |heading|);
    assert Chars(gs[..|heading|]) == heading;
    assert gs[|heading| + 1..] == text;
  }

  lemma {:induction false} FirstLineIs(gs: seq<Glyph>, n: nat)
    requires n < |gs| && gs[n].c == '\n' && forall i :: 0 <= i < n ==> gs[i].c != '\n'
    ensures FirstLine(gs) == n
  {
  }

  /** Splitting at white space: blanks separate, and a run of other characters is a word. */
  lemma WordsAreSplit(c: char, w: string, rest: string)
    ensures Words("") == []
    ensures IsSpace(c) ==> Words([c] + rest) == Words(rest)
    ensures IsWordOnly(w) && (rest == "" || IsSpace(rest[0])) ==> Words(w + rest) == [w] + Words(rest)
  {
    assert ([c] + rest)[1..] == rest;
    if IsWordOnly(w) && (rest == "" || IsSpace(rest[0])) {
      WordLengthIs(w, rest);
      assert (w + rest)[0] == w[0] && (w + rest)[..|w|] == w && (w + rest)[|w|..] == rest;
    }
  }

  /** A section is its first line, split into words, and the text behind it: nothing is lost between them. */
  lemma SectionIsHeadAndText(s: Section)
    ensures Heading(s) == Words(Chars(s.glyphs[..FirstLine(s.glyphs)]))
    ensures '\n' in Chars(s.glyphs) ==>
              s.glyphs == s.glyphs[..FirstLine(s.glyphs) + 1] + Rest(s).text && FirstLine(s.glyphs) < |s.glyphs|
    ensures '\n' !in Chars(s.glyphs) ==> FirstLine(s.glyphs) == |s.glyphs| && Rest(s).text == []
    ensures '\n' !in Chars(s.glyphs[..FirstLine(s.glyphs)])
    ensures Rest(s).place == Place(s.start.file, s.start.line + 1)
  {
    assert forall i :: 0 <= i < FirstLine(s.glyphs) ==> s.glyphs[i].c != '\n';
    var n := FirstLine(s.glyphs);
    if n < |s.glyphs| {
      assert Chars(s.glyphs)[n] == '\n';
    } else {
      assert forall i :: 0 <= i < |s.glyphs| ==> Chars(s.glyphs)[i] != '\n';
    }
  }

  /** Where the command at the start of a heading sends the text. */
  lemma CommandsAre(words: seq<string>)
    ensures words == [] ==> Aim(words) == Faulty(IndexError)
    ensures |words| == 1 && words[0] in {"override", "override-attr", "override-slot", "define", "modulename"} ==>
              Aim(words) == Faulty(IndexError)
    ensures |words| >= 2 ==>
              && (words[0] == "override" ==> Aim(words) == Named(Replacement(words[1])))
              && (words[0] == "override-attr" ==> Aim(words) == Named(Attribute(words[1])))
              && (words[0] == "override-slot" ==> Aim(words) == Named(TypeSlot(words[1])))
              && (words[0] == "define" && '.' !in words[1] ==> Aim(words) == Named(Function(words[1])))
              && (words[0] == "modulename" ==> Aim(words) == Elsewhere)
    ensures |words| >= 1 ==>
              && (words[0] == "headers" ==> Aim(words) == Headers)
              && (words[0] == "body" ==> Aim(words) == Body)
              && (words[0] == "init" ==> Aim(words) == Init)
              && (words[0] == "new-constructor" ==>
                  Aim(words) == if |words| == 2 then Elsewhere else Faulty(ValueError))
    ensures |words| >= 1 && Aim(words) != Elsewhere ==>
              words[0] in {"override", "override-attr", "override-slot", "define", "headers", "body", "init",
                           "modulename", "new-constructor"}
  {
    if |words| >= 2 && '.' !in words[1] {
      NoDot(words[1]);
    }
  }

  lemma {:induction false} NoDot(s: string)
    requires '.' !in s
    ensures Dot(s) == |s|
  {
    if s != "" {
      NoDot(s[1..]);
    }
  }

  lemma MethodCommand(words: seq<string>, klass: string, name: string)
    requires |words| >= 2 && words[0] == "define" && words[1] == klass + ("." + name) && '.' !in klass
    ensures Aim(words) == Named(Method(klass, name))
  {
    DotIs(klass, name);
    assert words[1][..|klass|] == klass && words[1][|klass| + 1..] == name;
  }

  // ---------- filing ----------

  function Lookup(texts: Texts, name: string): Option<seq<Glyph>> {
    if name in texts then Some(texts[name]) else None
  }

  /** What override(), attr_override(), slot_override(), define() and function() give. */
  function Text(t: Table, slot: Slot): Option<seq<Glyph>> {
    match slot
    case Replacement(name) => Lookup(t.overrides, name)
    case Attribute(name) => Lookup(t.overrideAttrs, name)
    case TypeSlot(name) => Lookup(t.overrideSlots, name)
    case Method(klass, name) => if klass in t.defines then Lookup(t.defines[klass], name) else None
    case Function(name) => Lookup(t.functions, name)
  }

  function Store(t: Table, slot: Slot, text: seq<Glyph>): Table {
    match slot
    case Replacement(name) => t.(overrides := t.overrides[name := text])
    case Attribute(name) => t.(overrideAttrs := t.overrideAttrs[name := text])
    case TypeSlot(name) => t.(overrideSlots := t.overrideSlots[name := text])
    case Method(klass, name) =>
      var known := if klass in t.defines then t.defines[klass] else map[];
      t.(defines := t.defines[klass := known[name := text]])
    case Function(name) => t.(functions := t.functions[name := text])
  }

  function File(t: Table, e: Entry): Result<Table, ParseError> {
    var chunk := e.chunk;
    match e.target
    case Named(slot) =>
      if slot.Replacement? && slot.name in t.overrides then Err(RuntimeError)
      else Ok(Store(t, slot, chunk.text).(startlines := t.startlines[slot.name := chunk.place]))
    case Headers => Ok(t.(headers := t.headers + [chunk]))
    case Body => Ok(t.(body := t.body + [chunk]))
    case Init => Ok(t.(init := t.init + [chunk]))
    case Elsewhere => Ok(t)
    case Faulty(error) => Err(error)
  }

  /** All calls of __parse_override of a run, in order; the sections of an included file stand where the
      include section was handled. */
  function FileAll(es: seq<Entry>): Result<Table, ParseError> {
    if es == [] then Ok(EMPTY) else
    match FileAll(es[..|es| - 1])
    case Err(error) => Err(error)
    case Ok(t) => File(t, es[|es| - 1])
  }

  lemma StoreKeepsRest(t: Table, slot: Slot, text: seq<Glyph>)
    ensures var next := Store(t, slot, text);
            next.headers == t.headers && next.body == t.body && next.init == t.init && next.startlines == t.startlines
  {
  }

  /** What a headers, body or init section adds to the text of its kind. */
  function PartItem(chunk: Chunk): seq<Item> {
    [Break, Directive(chunk.place)] + Copy(chunk.text)
  }

  function PartItems(chunks: seq<Chunk>): seq<Item> {
    if chunks == [] then [] else PartItems(chunks[..|chunks| - 1]) + PartItem(chunks[|chunks| - 1])
  }

  lemma PartItemsSnoc(chunks: seq<Chunk>, chunk: Chunk)
    ensures PartItems(chunks + [chunk]) == PartItems(chunks) + PartItem(chunk)
  {
    assert (chunks + [chunk])[..|chunks|] == chunks;
  }

  /** The parts of class Overrides that hold text. */
  class Overrides {
    var overrides: Texts
    var overrideAttrs: Texts
    var overrideSlots: Texts
    var defines: map<string, Texts>
    var functions: Texts
    var startlines: map<string, Place>
    var headers: seq<Item>
    var body: seq<Item>
    var init: seq<Item>

    constructor ()
      ensures Holds(EMPTY)
    {
      overrides, overrideAttrs, overrideSlots, defines, functions := map[], map[], map[], map[], map[];
      startlines := map[];
      headers, body, init := [], [], [];
    }

    ghost predicate HoldsTexts(t: Table)
      reads this
    {
      && overrides == t.overrides && overrideAttrs == t.overrideAttrs && overrideSlots == t.overrideSlots
      && defines == t.defines && functions == t.functions
    }

    ghost predicate HoldsParts(t: Table)
      reads this
    {
      headers == PartItems(t.headers) && body == PartItems(t.body) && init == PartItems(t.init)
    }

    ghost predicate Holds(t: Table)
      reads this
    {
      HoldsTexts(t) && HoldsParts(t) && startlines == t.startlines
    }

    method ParseOverride(s: Section, ghost t: Table) returns (error: Option<ParseError>)
      requires Holds(t)
      modifies this
      ensures match File(t, EntryOf(s))
              case Err(e) => error == Some(e)
              case Ok(next) => error == None && Holds(next)
    {
      error := Add(Aim(Heading(s)), Rest(s), t);
    }

    method Add(target: Target, rest: Chunk, ghost t: Table) returns (error: Option<ParseError>)
      requires Holds(t)
      modifies this
      ensures match File(t, Entry(target, rest))
              case Err(e) => error == Some(e)
              case Ok(next) => error == None && Holds(next)
    {
      error := None;
      match target {
        case Named(slot) => error := AddText(slot, rest, t);
        case Elsewhere =>
        case Faulty(e) => error := Some(e);
        case _ => AddPart(target, rest, t);
      }
    }

    method AddText(slot: Slot, rest: Chunk, ghost t: Table) returns (error: Option<ParseError>)
      requires Holds(t)
      modifies this
      ensures match File(t, Entry(Named(slot), rest))
              case Err(e) => error == Some(e)
              case Ok(next) => error == None && Holds(next)
    {
      if slot.Replacement? && slot.name in overrides {
        return Some(RuntimeError);
      }
      Keep(slot, rest.text, t);
      StoreKeepsRest(t, slot, rest.text);
      startlines := startlines[slot.name := rest.place];
      error := None;
    }

    method AddPart(target: Target, rest: Chunk, ghost t: Table)
      requires HoldsParts(t) && (target.Headers? || target.Body? || target.Init?)
      modifies `headers, `body, `init
      ensures HoldsParts(File(t, Entry(target, rest)).value)
    {
      match target {
        case Headers =>
          PartItemsSnoc(t.headers, rest);
          headers := headers + PartItem(rest);
        case Body =>
          PartItemsSnoc(t.body, rest);
          body := body + PartItem(rest);
        case Init =>
          PartItemsSnoc(t.init, rest);
          init := init + PartItem(rest);
      }
    }

    method Keep(slot: Slot, text: seq<Glyph>, ghost t: Table)
      requires HoldsTexts(t)
      modifies `overrides, `overrideAttrs, `overrideSlots, `defines, `functions
      ensures HoldsTexts(Store(t, slot, text))
    {
      match slot {
        case Replacement(name) => overrides := overrides[name := text];
        case Attribute(name) => overrideAttrs := overrideAttrs[name := text];
        case TypeSlot(name) => overrideSlots := overrideSlots[name := text];
        case Method(klass, name) =>
          var known := if klass in defines then defines[klass] else map[];
          defines := defines[klass := known[name := text]];
        case Function(name) => functions := functions[name := text];
      }
    }

    method TextOf(slot: Slot, ghost t: Table) returns (text: seq<Glyph>)
      requires Holds(t) && Text(t, slot).Some?
      ensures Text(t, slot) == Some(text)
    {
      match slot {
        case Replacement(name) => text := overrides[name];
        case Attribute(name) => text := overrideAttrs[name];
        case TypeSlot(name) => text := overrideSlots[name];
        case Method(klass, name) => text := defines[klass][name];
        case Function(name) => text := functions[name];
      }
    }

    ghost predicate HoldsAll(es: seq<Entry>)
      reads this
    {
      FileAll(es).Ok? && Holds(FileAll(es).value)
    }

    /** handle_file for a file without include sections, after the calls `es`. */
    method HandleFile(file: SourceFile, ghost es: seq<Entry>) returns (error: Option<ParseError>)
      requires HoldsAll(es)
      modifies this
      ensures match FileAll(es + Entries(Sections(file, 0)))
              case Err(e) => error == Some(e)
              case Ok(t) => error == None && Holds(t)
    {
      var bufs := ReadSections(file);
      ghost var new_ := Entries(bufs);
      assert es + new_[..0] == es;
      for i := 0 to |bufs|
        invariant HoldsAll(es + new_[..i])
      {
        error := HandleSection(bufs[i], es, new_, i);
        if error.Some? {
          return;
        }
      }
      assert new_[..|bufs|] == new_;
      error := None;
    }

    method HandleSection(s: Section, ghost es: seq<Entry>, ghost more: seq<Entry>, ghost i: nat)
        returns (error: Option<ParseError>)
      requires i < |more| && more[i] == EntryOf(s) && HoldsAll(es + more[..i])
      modifies this
      ensures error.None? ==> HoldsAll(es + more[..i + 1])
      ensures error.Some? ==> FileAll(es + more) == Err(error.value)
    {
      FileNext(es, more, i);
      error := ParseOverride(s, FileAll(es + more[..i]).value);
      if error.Some? {
        FilingStops(es, more, i);
      }
    }
  }

  lemma FileNext(es: seq<Entry>, more: seq<Entry>, i: nat)
    requires i < |more| && FileAll(es + more[..i]).Ok?
    ensures FileAll(es + more[..i + 1]) == File(FileAll(es + more[..i]).value, more[i])
  {
    assert (es + more[..i + 1])[..|es| + i] == es + more[..i];
  }

  lemma {:induction false} FilingStops(es: seq<Entry>, more: seq<Entry>, i: nat)
    requires i < |more| && FileAll(es + more[..i + 1]).Err?
    ensures FileAll(es + more) == FileAll(es + more[..i + 1])
    decreases |more|
  {
    if i + 1 == |more| {
      assert more[..i + 1] == more;
    } else {
      var before := more[..|more| - 1];
      assert before[..i + 1] == more[..i + 1];
      FilingStops(es, before, i);
      assert (es + more)[..|es + more| - 1] == es + before;
    }
  }

  // ---------- errors ----------

  /** The entry at `k` cannot be filed behind those before it. */
  predicate FailsAt(es: seq<Entry>, k: nat)
    requires k < |es|
  {
    var e := es[k];
    e.target.Faulty? ||
    (e.target.Named? && e.target.slot.Replacement? && exists j :: 0 <= j < k && es[j].target == e.target)
  }

  /** Filing fails exactly when a section is malformed, or a function is overridden a second time. */
  lemma {:induction false} FilingFailsWhen(es: seq<Entry>)
    ensures FileAll(es).Err? <==> exists k :: 0 <= k < |es| && FailsAt(es, k)
  {
    if es != [] {
      var before, last := es[..|es| - 1], |es| - 1;
      FilingFailsWhen(before);
      forall k | 0 <= k < last
        ensures FailsAt(es, k) <==> FailsAt(before, k)
      {
        assert forall j :: 0 <= j < k ==> before[j] == es[j];
      }
      if FileAll(before).Ok? {
        LastFails(before, es[last]);
        assert forall j :: 0 <= j < last ==> before[j] == es[j];
        assert FailsAt(es, last) <==> File(FileAll(before).value, es[last]).Err?;
      } else {
        var k :| 0 <= k < |before| && FailsAt(before, k);
        assert FailsAt(es, k);
      }
    }
  }

  lemma LastFails(es: seq<Entry>, e: Entry)
    requires FileAll(es).Ok?
    ensures File(FileAll(es).value, e).Err? <==>
            e.target.Faulty? ||
            (e.target.Named? && e.target.slot.Replacement? && exists j :: 0 <= j < |es| && es[j].target == e.target)
  {
    if e.target.Named? && e.target.slot.Replacement? {
      LookupsAre(es, e.target.slot);
      LastForExists(es, e.target.slot);
    }
  }

  lemma {:induction false} LastForExists(es: seq<Entry>, slot: Slot)
    ensures LastFor(es, slot).Some? <==> exists j :: 0 <= j < |es| && es[j].target == Named(slot)
  {
    if es != [] {
      var before := es[..|es| - 1];
      LastForExists(before, slot);
      assert forall j :: 0 <= j < |before| ==> before[j] == es[j];
    }
  }

  // ---------- looking up ----------

  predicate UsesName(e: Entry, name: string) {
    e.target.Named? && e.target.slot.name == name
  }

  /** The last entry filed under `slot`. */
  function LastFor(es: seq<Entry>, slot: Slot): Option<Entry> {
    if es == [] then None
    else if es[|es| - 1].target == Named(slot) then Some(es[|es| - 1])
    else LastFor(es[..|es| - 1], slot)
  }

  /** The last entry of any kind filed under `name`: `startlines` has one place for all kinds, and for
      a method it is filed under its bare name. */
  function LastNamed(es: seq<Entry>, name: string): Option<Entry> {
    if es == [] then None
    else if UsesName(es[|es| - 1], name) then Some(es[|es| - 1])
    else LastNamed(es[..|es| - 1], name)
  }

  function StartLine(t: Table, name: string): Option<Place> {
    if name in t.startlines then Some(t.startlines[name]) else None
  }

  lemma StoreThenText(t: Table, slot: Slot, text: seq<Glyph>, other: Slot)
    ensures Text(Store(t, slot, text), other) == if other == slot then Some(text) else Text(t, other)
  {
  }

  lemma FileThenText(t: Table, e: Entry, slot: Slot)
    requires File(t, e).Ok?
    ensures Text(File(t, e).value, slot) == if e.target == Named(slot) then Some(e.chunk.text) else Text(t, slot)
  {
    if e.target.Named? {
      StoreThenText(t, e.target.slot, e.chunk.text, slot);
    }
  }

  lemma FileThenStartLine(t: Table, e: Entry, name: string)
    requires File(t, e).Ok?
    ensures StartLine(File(t, e).value, name) == if UsesName(e, name) then Some(e.chunk.place) else StartLine(t, name)
  {
  }

  lemma {:induction false} LookupsAre(es: seq<Entry>, slot: Slot)
    requires FileAll(es).Ok?
    ensures var last := LastFor(es, slot);
            Text(FileAll(es).value, slot) == if last.Some? then Some(last.value.chunk.text) else None
  {
    if es != [] {
      LookupsAre(es[..|es| - 1], slot);
      FileThenText(FileAll(es[..|es| - 1]).value, es[|es| - 1], slot);
    }
  }

  lemma {:induction false} StartLinesAre(es: seq<Entry>, name: string)
    requires FileAll(es).Ok?
    ensures var last := LastNamed(es, name);
            StartLine(FileAll(es).value, name) == if last.Some? then Some(last.value.chunk.place) else None
  {
    if es != [] {
      StartLinesAre(es[..|es| - 1], name);
      FileThenStartLine(FileAll(es[..|es| - 1]).value, es[|es| - 1], name);
    }
  }

  lemma {:induction false} LastAreThere(es: seq<Entry>, slot: Slot)
    requires LastFor(es, slot).Some?
    ensures LastNamed(es, slot.name).Some?
    ensures LastFor(es, slot).value in es && LastNamed(es, slot.name).value in es
  {
    var last, before := es[|es| - 1], es[..|es| - 1];
    assert last in es;
    if last.target != Named(slot) {
      LastAreThere(before, slot);
    }
  }

  /** The text of a section starts one line below the section. */
  lemma RestInStep(s: Section)
    requires InStep(s.glyphs, s.start)
    ensures InStep(Rest(s).text, Rest(s).place)
  {
    var n := FirstLine(s.glyphs);
    if n < |s.glyphs| {
      var head := s.glyphs[..n + 1];
      assert s.glyphs == head + s.glyphs[n + 1..];
      InStepAppend(head, s.glyphs[n + 1..], s.start);
      NoNewlines(head, n);
    }
  }

  ghost predicate AllInStep(es: seq<Entry>) {
    forall e :: e in es ==> InStep(e.chunk.text, e.chunk.place)
  }

  /** The entries that a file gives know where they start. */
  lemma FilesAreInStep(file: SourceFile)
    requires IsReadable(file)
    ensures AllInStep(Entries(Sections(file, 0)))
  {
    SectionsInStep(file, 0);
    var sections := Sections(file, 0);
    forall e | e in Entries(sections)
      ensures InStep(e.chunk.text, e.chunk.place)
    {
      var i :| 0 <= i < |sections| && Entries(sections)[i] == e;
      assert sections[i] in sections;
      RestInStep(sections[i]);
    }
  }

  /** The line that is found for a text is the line the text starts at exactly when the last entry under
      its name starts where the text does, whatever its kind, or the text is empty. */
  lemma StartLineIsRightWhen(es: seq<Entry>, slot: Slot)
    requires FileAll(es).Ok? && LastFor(es, slot).Some? && AllInStep(es)
    ensures LastNamed(es, slot.name).Some?
    ensures var t := FileAll(es).value; Text(t, slot).Some? && slot.name in t.startlines
    ensures var t, e := FileAll(es).value, LastFor(es, slot).value;
            InStep(Text(t, slot).value, t.startlines[slot.name]) <==>
            e.chunk.text == [] || LastNamed(es, slot.name).value.chunk.place == e.chunk.place
  {
    LookupsAre(es, slot);
    StartLinesAre(es, slot.name);
    LastAreThere(es, slot);
    StartsAt(LastFor(es, slot).value.chunk.text, LastFor(es, slot).value.chunk.place,
             LastNamed(es, slot.name).value.chunk.place);
  }

  lemma StartsAt(text: seq<Glyph>, place: Place, other: Place)
    requires InStep(text, place)
    ensures InStep(text, other) <==> text == [] || other == place
  {
    if text != [] {
      assert text[..0] == [];
      assert InStepAt(text, place, 0);
      assert InStep(text, other) ==> InStepAt(text, other, 0);
    }
  }

  /** With one kind of entry for each name every text is found with its line. */
  lemma {:induction false} DistinctNamesAreRight(es: seq<Entry>, slot: Slot)
    requires LastFor(es, slot).Some? && forall e :: e in es && UsesName(e, slot.name) ==> e.target == Named(slot)
    ensures LastNamed(es, slot.name) == LastFor(es, slot)
  {
    var last := es[|es| - 1];
    assert last in es;
    if last.target != Named(slot) {
      DistinctNamesAreRight(es[..|es| - 1], slot);
    }
  }
}
