/**
 Generated C files and the #line directives in them (class FileOutput of codegen/codegen.py), read as
 section 6.10.4 of ISO/IEC 9899:1999 says: a directive, which stands at the start of a line, numbers
 the line after it.
 */
module LineMap {
  import opened OverrideFiles

  /** Copied text comes from an override file, own text from the generator.  `Break` is the newline put
      before a directive, so that it stands at the start of a line. */
  datatype Item = Copied(glyph: Glyph) | Own(c: char) | Break | Directive(place: Place)

  function Copy(gs: seq<Glyph>): seq<Item> {
    seq(|gs|, i requires 0 <= i < |gs| => Copied(gs[i]))
  }

  function Write(text: string): seq<Item> {
    seq(|text|, i requires 0 <= i < |text| => Own(text[i]))
  }

  // ---------- the preprocessor ----------

  /** The place presumed for the next character, and whether only white space precedes it on its line. */
  datatype Cursor = Cursor(place: Place, atStart: bool)

  predicate IsBlank(c: char) {
    c == ' ' || c == '\t' || c == '\U{0B}' || c == '\U{0C}'
  }

  function NextLine(place: Place): Place {
    Place(place.file, place.line + 1)
  }

  function Pass(cur: Cursor, c: char): Cursor {
    if c == '\n' then Cursor(NextLine(cur.place), true) else Cursor(cur.place, cur.atStart && IsBlank(c))
  }

  function Step(cur: Cursor, item: Item): Cursor {
    match item
    case Copied(g) => Pass(cur, g.c)
    case Own(c) => Pass(cur, c)
    case Break => Pass(cur, '\n')
    case Directive(place) => if cur.atStart then Cursor(place, true) else Pass(cur, '\n')
  }

  function Run(cur: Cursor, items: seq<Item>): Cursor {
    if items == [] then cur else Step(Run(cur, items[..|items| - 1]), items[|items| - 1])
  }

  predicate EndsLine(item: Item) {
    match item
    case Copied(g) => g.c == '\n'
    case Own(c) => c == '\n'
    case _ => true
  }

  /** How many newlines have been written. */
  function LineCount(items: seq<Item>): nat {
    if items == [] then 0 else LineCount(items[..|items| - 1]) + if EndsLine(items[|items| - 1]) then 1 else 0
  }

  /** The preprocessor knows the character at `i` by its true place: for copied text the line of the
      override file it was read from, for own text its line in the generated file. */
  predicate TrueAt(file: string, out: seq<Item>, i: nat)
    requires i < |out|
  {
    var presumed := Run(Beginning(file), out[..i]).place;
    match out[i]
    case Copied(g) => presumed == g.origin
    case Own(_) => presumed == Place(file, 1 + LineCount(out[..i]))
    case _ => true
  }

  function Beginning(file: string): Cursor {
    Cursor(Place(file, 1), true)
  }

  ghost predicate TrueMap(file: string, out: seq<Item>) {
    forall i :: 0 <= i < |out| ==> TrueAt(file, out, i)
  }

  /** The next character is presumed to be where the output is. */
  predicate Placed(file: string, out: seq<Item>) {
    Run(Beginning(file), out).place == Place(file, 1 + LineCount(out))
  }

  /** And it starts a line. */
  predicate Synced(file: string, out: seq<Item>) {
    Run(Beginning(file), out) == Cursor(Place(file, 1 + LineCount(out)), true)
  }

  // ---------- runs ----------

  lemma {:induction false} RunAppend(cur: Cursor, a: seq<Item>, b: seq<Item>)
    ensures Run(cur, a + b) == Run(Run(cur, a), b)
    ensures LineCount(a + b) == LineCount(a) + LineCount(b)
  {
    if b == [] {
      assert a + b == a;
    } else {
      RunAppend(cur, a, b[..|b| - 1]);
      assert (a + b)[..|a + b| - 1] == a + b[..|b| - 1];
    }
  }

  lemma RunOne(cur: Cursor, item: Item)
    ensures Run(cur, [item]) == Step(cur, item)
    ensures LineCount([item]) == if EndsLine(item) then 1 else 0
  {
    assert [item][..0] == [];
  }

  lemma RunTwo(cur: Cursor, x: Item, y: Item)
    ensures Run(cur, [x, y]) == Step(Step(cur, x), y)
    ensures LineCount([x, y]) == LineCount([x]) + LineCount([y])
  {
    assert [x, y] == [x] + [y];
    RunAppend(cur, [x], [y]);
    RunOne(cur, x);
    RunOne(Step(cur, x), y);
  }

  /** Only white space after the last newline of the first `n` characters: a directive written then
      stands at the start of a line. */
  predicate BlankSinceNewline(gs: seq<Glyph>, n: nat)
    requires n <= |gs|
  {
    n == 0 || gs[n - 1].c == '\n' || (IsBlank(gs[n - 1].c) && BlankSinceNewline(gs, n - 1))
  }

  predicate EndsBlank(gs: seq<Glyph>) {
    BlankSinceNewline(gs, |gs|)
  }

  lemma {:induction false} RunCopy(cur: Cursor, gs: seq<Glyph>, n: nat)
    requires n <= |gs| && cur.atStart
    ensures Run(cur, Copy(gs)[..n]) ==
            Cursor(Place(cur.place.file, cur.place.line + NewlinesBefore(gs, n)), BlankSinceNewline(gs, n))
    ensures LineCount(Copy(gs)[..n]) == NewlinesBefore(gs, n)
  {
    if n > 0 {
      RunCopy(cur, gs, n - 1);
      assert Copy(gs)[..n][..n - 1] == Copy(gs)[..n - 1];
    }
  }

  lemma {:induction false} RunWrite(cur: Cursor, text: string)
    ensures Run(cur, Write(text)).place == Place(cur.place.file, cur.place.line + LineCount(Write(text)))
  {
    if text != "" {
      RunWrite(cur, text[..|text| - 1]);
      assert Write(text)[..|text| - 1] == Write(text[..|text| - 1]);
    }
  }

  /** Is the end of `text` the start of a line, when `start` says so for its beginning? */
  predicate StartsLine(text: string, start: bool) {
    if text == "" then start else
    var c := text[|text| - 1];
    c == '\n' || (IsBlank(c) && StartsLine(text[..|text| - 1], start))
  }

  lemma {:induction false} RunWriteStarts(cur: Cursor, text: string)
    ensures Run(cur, Write(text)).atStart == StartsLine(text, cur.atStart)
  {
    if text != "" {
      RunWriteStarts(cur, text[..|text| - 1]);
      assert Write(text)[..|text| - 1] == Write(text[..|text| - 1]);
    }
  }

  // ---------- writing on ----------

  /** What follows from the cursor alone, for items written after `out`. */
  predicate TrueNext(file: string, out: seq<Item>, more: seq<Item>, i: nat)
    requires i < |more|
  {
    var presumed := Run(Run(Beginning(file), out), more[..i]).place;
    match more[i]
    case Copied(g) => presumed == g.origin
    case Own(_) => presumed == Place(file, 1 + LineCount(out) + LineCount(more[..i]))
    case _ => true
  }

  lemma TrueParts(file: string, out: seq<Item>, more: seq<Item>, i: nat)
    requires i < |out + more|
    ensures TrueAt(file, out + more, i) <==>
            if i < |out| then TrueAt(file, out, i) else TrueNext(file, out, more, i - |out|)
  {
    if i < |out| {
      assert (out + more)[..i] == out[..i];
    } else {
      assert (out + more)[..i] == out + more[..i - |out|];
      RunAppend(Beginning(file), out, more[..i - |out|]);
    }
  }

  ghost predicate AllTrueNext(file: string, out: seq<Item>, more: seq<Item>) {
    forall i :: 0 <= i < |more| ==> TrueNext(file, out, more, i)
  }

  lemma TrueMapAppend(file: string, out: seq<Item>, more: seq<Item>)
    ensures TrueMap(file, out + more) <==> TrueMap(file, out) && AllTrueNext(file, out, more)
  {
    if TrueMap(file, out + more) {
      forall i | 0 <= i < |out|
        ensures TrueAt(file, out, i)
      {
        TrueParts(file, out, more, i);
      }
      forall i | 0 <= i < |more|
        ensures TrueNext(file, out, more, i)
      {
        TrueParts(file, out, more, |out| + i);
      }
    }
    if TrueMap(file, out) && AllTrueNext(file, out, more) {
      forall i | 0 <= i < |out + more|
        ensures TrueAt(file, out + more, i)
      {
        TrueParts(file, out, more, i);
      }
    }
  }

  /** The generator's own text keeps a synchronised map true. */
  lemma WriteKeeps(file: string, out: seq<Item>, text: string)
    requires TrueMap(file, out) && Placed(file, out)
    ensures TrueMap(file, out + Write(text)) && Placed(file, out + Write(text))
    ensures Run(Beginning(file), out + Write(text)).atStart == StartsLine(text, Run(Beginning(file), out).atStart)
  {
    var cur := Run(Beginning(file), out);
    forall i | 0 <= i < |text|
      ensures TrueNext(file, out, Write(text), i)
    {
      assert Write(text)[..i] == Write(text[..i]);
      RunWrite(cur, text[..i]);
    }
    TrueMapAppend(file, out, Write(text));
    RunAppend(Beginning(file), out, Write(text));
    RunWrite(cur, text);
    RunWriteStarts(cur, text);
  }

  /** A directive that does not stand at the start of a line is a line like any other. */
  lemma LateDirective(file: string, out: seq<Item>, place: Place)
    requires TrueMap(file, out) && !Run(Beginning(file), out).atStart
    ensures TrueMap(file, out + [Directive(place)])
    ensures Run(Beginning(file), out + [Directive(place)]) == Cursor(NextLine(Run(Beginning(file), out).place), true)
    ensures LineCount(out + [Directive(place)]) == LineCount(out) + 1
  {
    RunAppend(Beginning(file), out, [Directive(place)]);
    RunOne(Run(Beginning(file), out), Directive(place));
    TrueMapAppend(file, out, [Directive(place)]);
  }

  /** A directive at the start of a line, and text behind it: the text is known by its true place
      exactly when the directive names the place it was read from. */
  lemma CopyIsTrueWhenInStep(file: string, out: seq<Item>, place: Place, gs: seq<Glyph>)
    requires TrueMap(file, out) && Run(Beginning(file), out).atStart
    ensures TrueMap(file, out + [Directive(place)] + Copy(gs)) <==> InStep(gs, place)
    ensures Run(Beginning(file), out + [Directive(place)] + Copy(gs)) ==
            Cursor(Place(place.file, place.line + Newlines(gs)), EndsBlank(gs))
    ensures LineCount(out + [Directive(place)] + Copy(gs)) == LineCount(out) + 1 + Newlines(gs)
  {
    var start := out + [Directive(place)];
    RunAppend(Beginning(file), out, [Directive(place)]);
    RunOne(Run(Beginning(file), out), Directive(place));
    TrueMapAppend(file, out, [Directive(place)]);
    forall i | 0 <= i < |gs|
      ensures TrueNext(file, start, Copy(gs), i) <==> InStepAt(gs, place, i)
    {
      RunCopy(Cursor(place, true), gs, i);
    }
    TrueMapAppend(file, start, Copy(gs));
    RunAppend(Beginning(file), start, Copy(gs));
    RunCopy(Cursor(place, true), gs, |gs|);
    assert Copy(gs)[..|gs|] == Copy(gs);
  }

  /** resetline: the directive takes effect exactly when it stands at the start of a line. */
  lemma ResetKeeps(file: string, out: seq<Item>)
    requires TrueMap(file, out)
    ensures var reset, cur := out + [Directive(Place(file, 1 + LineCount(out) + 1))], Run(Beginning(file), out);
            && TrueMap(file, reset)
            && (Synced(file, reset) <==> cur.atStart || NextLine(cur.place) == Place(file, 2 + LineCount(out)))
  {
    var directive := Directive(Place(file, 1 + LineCount(out) + 1));
    RunAppend(Beginning(file), out, [directive]);
    RunOne(Run(Beginning(file), out), directive);
    TrueMapAppend(file, out, [directive]);
  }
}
