/**
 Override files (codegen/override.py): a file is split at its %% lines, and each section is filed under
 the name on its first line together with the line its text starts at.
 Every character carries the place it was read from, which no operation looks at.
 */
module OverrideFiles {
  import opened Wrappers
  import opened TextLines

  datatype Place = Place(file: string, line: nat)

  datatype Glyph = Glyph(c: char, origin: Place)

  /** A file as readline returns it: the lines of its text. */
  datatype SourceFile = SourceFile(name: string, lines: seq<string>)

  predicate IsReadable(file: SourceFile) {
    && (forall i :: 0 <= i < |file.lines| ==> file.lines[i] != "")
    && (forall i :: 0 <= i < |file.lines| - 1 ==> IsLine(file.lines[i]))
    && (file.lines != [] ==> OneLine(file.lines[|file.lines| - 1]))
  }

  /** No newline before the last character. */
  predicate OneLine(line: string) {
    forall k :: 0 <= k < |line| - 1 ==> line[k] != '\n'
  }

  /** One call of __parse_override: a buffer, and the line it is said to start at. */
  datatype Section = Section(glyphs: seq<Glyph>, start: Place)

  /** How many of the first `n` characters are newlines. */
  function NewlinesBefore(gs: seq<Glyph>, n: nat): nat
    requires n <= |gs|
  {
    if n == 0 then 0 else NewlinesBefore(gs, n - 1) + if gs[n - 1].c == '\n' then 1 else 0
  }

  function Newlines(gs: seq<Glyph>): nat {
    NewlinesBefore(gs, |gs|)
  }

  predicate InStepAt(gs: seq<Glyph>, place: Place, i: nat)
    requires i < |gs|
  {
    gs[i].origin == Place(place.file, place.line + NewlinesBefore(gs, i))
  }

  /** Numbering the text from `place` on gives every character its true place. */
  ghost predicate InStep(gs: seq<Glyph>, place: Place) {
    forall i :: 0 <= i < |gs| ==> InStepAt(gs, place, i)
  }

  lemma {:induction false} SameNewlines(a: seq<Glyph>, b: seq<Glyph>, n: nat)
    requires n <= |a| && n <= |b| && forall i :: 0 <= i < n ==> a[i] == b[i]
    ensures NewlinesBefore(a, n) == NewlinesBefore(b, n)
  {
    if n > 0 {
      SameNewlines(a, b, n - 1);
    }
  }

  lemma {:induction false} NewlinesAfter(a: seq<Glyph>, b: seq<Glyph>, n: nat)
    requires n <= |b|
    ensures NewlinesBefore(a + b, |a| + n) == Newlines(a) + NewlinesBefore(b, n)
  {
    if n == 0 {
      SameNewlines(a + b, a, |a|);
    } else {
      NewlinesAfter(a, b, n - 1);
    }
  }

  lemma {:induction false} NoNewlines(gs: seq<Glyph>, n: nat)
    requires n <= |gs| && forall i :: 0 <= i < n ==> gs[i].c != '\n'
    ensures NewlinesBefore(gs, n) == 0
  {
    if n > 0 {
      NoNewlines(gs, n - 1);
    }
  }

  lemma NewlinesAppend(a: seq<Glyph>, b: seq<Glyph>)
    ensures Newlines(a + b) == Newlines(a) + Newlines(b)
  {
    NewlinesAfter(a, b, |b|);
  }

  lemma InStepParts(a: seq<Glyph>, b: seq<Glyph>, place: Place, i: nat)
    requires i < |a + b|
    ensures InStepAt(a + b, place, i) <==>
            if i < |a| then InStepAt(a, place, i) else InStepAt(b, Place(place.file, place.line + Newlines(a)), i - |a|)
  {
    if i < |a| {
      SameNewlines(a + b, a, i);
    } else {
      NewlinesAfter(a, b, i - |a|);
    }
  }

  /** A text is in step when its two halves are. */
  lemma InStepAppend(a: seq<Glyph>, b: seq<Glyph>, place: Place)
    ensures InStep(a + b, place) <==> InStep(a, place) && InStep(b, Place(place.file, place.line + Newlines(a)))
  {
    var next := Place(place.file, place.line + Newlines(a));
    if InStep(a + b, place) {
      forall i | 0 <= i < |a|
        ensures InStepAt(a, place, i)
      {
        InStepParts(a, b, place, i);
      }
      forall i | 0 <= i < |b|
        ensures InStepAt(b, next, i)
      {
        InStepParts(a, b, place, |a| + i);
      }
    }
    if InStep(a, place) && InStep(b, next) {
      forall i | 0 <= i < |a + b|
        ensures InStepAt(a + b, place, i)
      {
        InStepParts(a, b, place, i);
      }
    }
  }

  // ---------- splitting a file ----------

  /** The line `%%`, with or without its newline. */
  predicate IsSeparator(line: string) {
    |line| >= 2 && line[0] == '%' && line[1] == '%' && (|line| == 2 || (|line| == 3 && line[2] == '\n'))
  }

  function Tag(line: string, place: Place): seq<Glyph> {
    seq(|line|, i requires 0 <= i < |line| => Glyph(line[i], place))
  }

  /** The lines of `file` from index `a` up to `b`, as they stand there. */
  function Stretch(file: SourceFile, a: nat, b: nat): seq<Glyph>
    requires a <= b <= |file.lines|
  {
    if a == b then [] else Stretch(file, a, b - 1) + Tag(file.lines[b - 1], Place(file.name, b))
  }

  function NextSeparator(lines: seq<string>, k: nat): (b: nat)
    requires k <= |lines|
    ensures k <= b <= |lines|
    decreases |lines| - k
  {
    if k == |lines| || IsSeparator(lines[k]) then k else NextSeparator(lines, k + 1)
  }

  /** The sections from line index `a` on: the non-empty stretches between separators. */
  function Sections(file: SourceFile, a: nat): seq<Section>
    requires a <= |file.lines|
    decreases |file.lines| - a, 1
  {
    var b := NextSeparator(file.lines, a);
    if a < b then [Piece(file, a, b)] + RestAfter(file, b) else RestAfter(file, b)
  }

  /** The sections after a separator at index `b`. */
  function RestAfter(file: SourceFile, b: nat): seq<Section>
    requires b <= |file.lines|
    decreases |file.lines| - b, 0
  {
    if b < |file.lines| then Sections(file, b + 1) else []
  }

  function Piece(file: SourceFile, a: nat, b: nat): Section
    requires a <= b <= |file.lines|
  {
    Section(Stretch(file, a, b), Place(file.name, a + 1))
  }

  lemma {:induction false} SeparatorIsNext(lines: seq<string>, k: nat)
    requires k <= |lines|
    ensures forall i :: k <= i < NextSeparator(lines, k) ==> !IsSeparator(lines[i])
    ensures NextSeparator(lines, k) < |lines| ==> IsSeparator(lines[NextSeparator(lines, k)])
    decreases |lines| - k
  {
    if k < |lines| && !IsSeparator(lines[k]) {
      SeparatorIsNext(lines, k + 1);
    }
  }

  lemma {:induction false} NextSeparatorIs(lines: seq<string>, k: nat, b: nat)
    requires k <= b <= |lines| && (b < |lines| ==> IsSeparator(lines[b]))
    requires forall i :: k <= i < b ==> !IsSeparator(lines[i])
    ensures NextSeparator(lines, k) == b
    decreases b - k
  {
    if k < b {
      NextSeparatorIs(lines, k + 1, b);
    }
  }

  lemma SnocCons(bufs: seq<Section>, piece: Section, rest: seq<Section>)
    ensures bufs + ([piece] + rest) == bufs + [piece] + rest
    ensures bufs + [] == bufs && bufs + [piece] + [] == bufs + [piece]
    ensures [piece] + [] == [piece]
  {
  }

  /** The sections from `a` on, when the next line to look at is a separator at `b` or the end. */
  lemma SectionsAtCut(file: SourceFile, bufs: seq<Section>, a: nat, b: nat)
    requires a <= b <= |file.lines| && (b < |file.lines| ==> IsSeparator(file.lines[b]))
    requires forall i :: a <= i < b ==> !IsSeparator(file.lines[i])
    ensures bufs + Sections(file, a) == Flush(bufs, file, a, b) + RestAfter(file, b)
  {
    NextSeparatorIs(file.lines, a, b);
    SnocCons(bufs, Piece(file, a, b), RestAfter(file, b));
  }

  /** `if lines: bufs.append(...)`, with the lines from `a` up to `b` pending. */
  function Flush(bufs: seq<Section>, file: SourceFile, a: nat, b: nat): seq<Section>
    requires a <= b <= |file.lines|
  {
    if a < b then bufs + [Piece(file, a, b)] else bufs
  }

  method ReadSections(file: SourceFile) returns (bufs: seq<Section>)
    ensures bufs == Sections(file, 0)
  {
    bufs := [];
    ghost var todo := Sections(file, 0);
    var startline := 1;
    var lines := [];
    var linenum := 1;
    while linenum <= |file.lines|
      invariant 1 <= startline <= linenum <= |file.lines| + 1
      invariant lines == Stretch(file, startline - 1, linenum - 1)
      invariant forall i :: startline - 1 <= i < linenum - 1 ==> !IsSeparator(file.lines[i])
      invariant todo == Sections(file, startline - 1) && bufs + todo == Sections(file, 0)
    {
      var line := file.lines[linenum - 1];
      if IsSeparator(line) {
        bufs, todo := Cut(file, bufs, lines, startline - 1, linenum - 1);
        startline := linenum + 1;
        lines := [];
      } else {
        lines := lines + Tag(line, Place(file.name, linenum));
      }
      linenum := linenum + 1;
    }
    bufs, todo := Cut(file, bufs, lines, startline - 1, linenum - 1);
  }

  method Cut(file: SourceFile, bufs: seq<Section>, lines: seq<Glyph>, a: nat, b: nat)
      returns (next: seq<Section>, ghost todo: seq<Section>)
    requires a <= b <= |file.lines| && (b < |file.lines| ==> IsSeparator(file.lines[b]))
    requires forall i :: a <= i < b ==> !IsSeparator(file.lines[i])
    requires lines == Stretch(file, a, b)
    ensures next + todo == bufs + Sections(file, a)
    ensures if b < |file.lines| then todo == Sections(file, b + 1) else todo == [] && next == bufs + Sections(file, a)
  {
    next, todo := bufs, RestAfter(file, b);
    SectionsAtCut(file, bufs, a, b);
    if a < b {
      next := next + [Section(lines, Place(file.name, a + 1))];
    }
    SnocCons(next, Piece(file, a, b), []);
  }

  // ---------- sections keep their line numbers ----------

  /** Any file read line by line is readable in this sense. */
  lemma {:induction false} FilesAreReadable(name: string, text: string)
    ensures IsReadable(SourceFile(name, SplitLines(text)))
    decreases |text|
  {
    if text != "" {
      FilesAreReadable(name, text[LineEnd(text)..]);
    }
  }

  lemma TagInStep(line: string, place: Place)
    requires line != "" && OneLine(line)
    ensures InStep(Tag(line, place), place)
    ensures IsLine(line) ==> Newlines(Tag(line, place)) == 1
  {
    forall i | 0 <= i < |line|
      ensures NewlinesBefore(Tag(line, place), i) == 0
    {
      NoNewlines(Tag(line, place), i);
    }
    assert NewlinesBefore(Tag(line, place), |line| - 1) == 0;
  }

  lemma {:induction false} StretchInStep(file: SourceFile, a: nat, b: nat)
    requires IsReadable(file) && a <= b <= |file.lines|
    ensures InStep(Stretch(file, a, b), Place(file.name, a + 1))
    ensures b < |file.lines| ==> Newlines(Stretch(file, a, b)) == b - a
    decreases b - a
  {
    if a < b {
      assert IsLine(file.lines[b - 1]) || b == |file.lines|;
      StretchInStep(file, a, b - 1);
      var before, last := Stretch(file, a, b - 1), Tag(file.lines[b - 1], Place(file.name, b));
      TagInStep(file.lines[b - 1], Place(file.name, b));
      InStepAppend(before, last, Place(file.name, a + 1));
      NewlinesAppend(before, last);
    }
  }

  /** What a section reports as its place is the place it was read from. */
  lemma {:induction false} SectionsInStep(file: SourceFile, a: nat)
    requires IsReadable(file) && a <= |file.lines|
    ensures forall s :: s in Sections(file, a) ==> InStep(s.glyphs, s.start)
    decreases |file.lines| - a
  {
    var b := NextSeparator(file.lines, a);
    StretchInStep(file, a, b);
    if b < |file.lines| {
      SectionsInStep(file, b + 1);
    }
  }

  // ---------- and nothing else is lost ----------

  /** The characters of the lines from index `a` on that are not separators. */
  function Kept(file: SourceFile, a: nat): seq<Glyph>
    requires a <= |file.lines|
    decreases |file.lines| - a
  {
    if a == |file.lines| then [] else
    (if IsSeparator(file.lines[a]) then [] else Tag(file.lines[a], Place(file.name, a + 1))) + Kept(file, a + 1)
  }

  function AllGlyphs(sections: seq<Section>): seq<Glyph> {
    if sections == [] then [] else sections[0].glyphs + AllGlyphs(sections[1..])
  }

  lemma Regroup(a: seq<Glyph>, b: seq<Glyph>, c: seq<Glyph>)
    ensures a + b + c == a + (b + c)
    ensures [] + c == c
  {
  }

  lemma {:induction false} StretchKept(file: SourceFile, a: nat, b: nat)
    requires a <= b <= |file.lines| && forall i :: a <= i < b ==> !IsSeparator(file.lines[i])
    ensures Stretch(file, a, b) + Kept(file, b) == Kept(file, a)
    decreases b - a
  {
    if a == b {
      Regroup([], [], Kept(file, b));
    } else {
      StretchKept(file, a, b - 1);
      var last := Tag(file.lines[b - 1], Place(file.name, b));
      assert Kept(file, b - 1) == last + Kept(file, b);
      Regroup(Stretch(file, a, b - 1), last, Kept(file, b));
    }
  }

  /** The sections hold every line but the separators, in the order of the file. */
  lemma {:induction false} NothingIsLost(file: SourceFile, a: nat)
    requires a <= |file.lines|
    ensures AllGlyphs(Sections(file, a)) == Kept(file, a)
    decreases |file.lines| - a
  {
    var b := NextSeparator(file.lines, a);
    SeparatorIsNext(file.lines, a);
    StretchKept(file, a, b);
    var rest := RestAfter(file, b);
    assert AllGlyphs(rest) == Kept(file, b) by {
      if b < |file.lines| {
        NothingIsLost(file, b + 1);
        KeptPastSeparator(file, b);
      }
    }
    GlyphsCons(Piece(file, a, b), rest);
    Regroup([], [], Kept(file, b));
  }

  lemma KeptPastSeparator(file: SourceFile, b: nat)
    requires b < |file.lines| && IsSeparator(file.lines[b])
    ensures Kept(file, b) == Kept(file, b + 1)
  {
    assert [] + Kept(file, b + 1) == Kept(file, b + 1);
  }

  lemma GlyphsCons(first: Section, rest: seq<Section>)
    ensures AllGlyphs([first] + rest) == first.glyphs + AllGlyphs(rest)
  {
    assert ([first] + rest)[1..] == rest;
  }

  // ---------- and sections are as long as can be ----------

  lemma SeparatorsAre(line: string)
    ensures IsSeparator(line) <==> line == "%%" || line == "%%\n"
  {
  }

  /** The lines from index `a` up to `b`, with a separator or an end of the file on either side. */
  predicate IsStretchBetween(file: SourceFile, a: nat, b: nat) {
    && a < b <= |file.lines| && (a > 0 ==> IsSeparator(file.lines[a - 1])) &&
       (b < |file.lines| ==> IsSeparator(file.lines[b]))
    && forall i :: a <= i < b ==> !IsSeparator(file.lines[i])
  }

  predicate IsSectionAt(file: SourceFile, s: Section, a: nat, b: nat) {
    IsStretchBetween(file, a, b) && s == Section(Stretch(file, a, b), Place(file.name, a + 1))
  }

  ghost predicate IsWholeSection(file: SourceFile, s: Section) {
    exists a: nat, b: nat :: IsSectionAt(file, s, a, b)
  }

  /** Every section is all that stands between two separators. */
  lemma {:induction false} SectionsAreWhole(file: SourceFile, a: nat)
    requires a <= |file.lines| && (a > 0 ==> IsSeparator(file.lines[a - 1]))
    ensures forall s :: s in Sections(file, a) ==> IsWholeSection(file, s)
    decreases |file.lines| - a
  {
    var b := NextSeparator(file.lines, a);
    SeparatorIsNext(file.lines, a);
    if b < |file.lines| {
      SectionsAreWhole(file, b + 1);
    }
    if a < b {
      assert IsSectionAt(file, Piece(file, a, b), a, b);
    }
  }
}
