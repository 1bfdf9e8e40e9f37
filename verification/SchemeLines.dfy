/**
 What one line of a .defs file consists of: blanks, a comment up to the end, quoted lists, parentheses,
 strings with escapes, words.  The scanner finds exactly these lexemes on every line.
 */
module SchemeLines {
  import opened Wrappers
  import opened SchemeReader

  /** Inside a string: a character that stands for itself, or a backslash and any other character. */
  datatype Part = Plain(c: char) | Escaped(c: char)

  datatype Lexeme =
    | Blank(c: char)
    | Comment(text: string)
    | Tick
    | StrayTick
    | OpenParen
    | CloseParen
    | Name(word: string)
    | Text(parts: seq<Part>)
    | Unclosed(parts: seq<Part>, dangling: bool)

  // ---------- how lexemes are written ----------

  function PartText(part: Part): string {
    match part case Plain(c) => [c] case Escaped(c) => ['\\', c]
  }

  function PartsText(parts: seq<Part>): string {
    if parts == [] then "" else PartText(parts[0]) + PartsText(parts[1..])
  }

  function LexemeText(x: Lexeme): string {
    match x
    case Blank(c) => [c]
    case Comment(text) => ";" + text
    case Tick => "'"
    case StrayTick => "'"
    case OpenParen => "("
    case CloseParen => ")"
    case Name(word) => word
    case Text(parts) => "\"" + (PartsText(parts) + "\"")
    case Unclosed(parts, dangling) => "\"" + (PartsText(parts) + if dangling then "\\" else "")
  }

  function LineText(xs: seq<Lexeme>): string {
    if xs == [] then "" else LexemeText(xs[0]) + LineText(xs[1..])
  }

  predicate EndsWord(c: char) {
    c == ' ' || c == '\t' || c == '\n' || c == '\r' || c == '\U{0B}' || c == '\U{0C}' ||
    c == '(' || c == ')' || c == ';' || c == '\'' || c == '"'
  }

  predicate IsPart(part: Part) {
    part.Plain? ==> part.c != '"' && part.c != '\\'
  }

  predicate AreParts(parts: seq<Part>) {
    forall i :: 0 <= i < |parts| ==> IsPart(parts[i])
  }

  /** The lexeme `x` may stand before `rest`. */
  predicate Stands(x: Lexeme, rest: string) {
    match x
    case Blank(c) => c == ' ' || c == '\t' || c == '\n' || c == '\r' || c == '\U{0B}' || c == '\U{0C}'
    case Comment(_) => rest == ""
    case Tick => rest != "" && rest[0] == '('
    case StrayTick => rest == "" || rest[0] != '('
    case OpenParen => true
    case CloseParen => true
    case Name(word) =>
      word != "" && (forall i :: 0 <= i < |word| ==> !EndsWord(word[i])) && (rest == "" || EndsWord(rest[0]))
    case Text(parts) => AreParts(parts)
    case Unclosed(parts, _) => AreParts(parts) && rest == ""
  }

  predicate IsLineOf(xs: seq<Lexeme>, line: string)
    decreases |xs|
  {
    if xs == [] then line == "" else
    var n := |LexemeText(xs[0])|;
    n <= |line| && line[..n] == LexemeText(xs[0]) && Stands(xs[0], line[n..]) && IsLineOf(xs[1..], line[n..])
  }

  // ---------- what they mean ----------

  function PartMeaning(part: Part): string {
    match part
    case Plain(c) => [c]
    case Escaped(c) => if c == 'n' then "\n" else if c == 'r' then "\r" else if c == 't' then "\t" else ['\\', c]
  }

  function PartsMeaning(parts: seq<Part>): string {
    if parts == [] then "" else PartMeaning(parts[0]) + PartsMeaning(parts[1..])
  }

  /** Blanks, comments and the quotes before lists mean nothing; a quote anywhere else is an empty word. */
  function Tokens(x: Lexeme, numeral: Numeral): seq<Token> {
    match x
    case Blank(_) => []
    case Comment(_) => []
    case Tick => []
    case StrayTick => [Word(if numeral("") then Num("") else Str(""))]
    case OpenParen => [Token.Open]
    case CloseParen => [Close]
    case Name(word) => [Word(if numeral(word) then Num(word) else Str(word))]
    case Text(parts) => [Quoted(PartsMeaning(parts))]
    case Unclosed(_, _) => [UnclosedQuote]
  }

  function LineTokens(xs: seq<Lexeme>, numeral: Numeral): seq<Token> {
    if xs == [] then [] else Tokens(xs[0], numeral) + LineTokens(xs[1..], numeral)
  }

  // ---------- the scanner finds them ----------

  lemma SymbolCharsAre(c: char)
    ensures IsSymbolChar(c) <==> !EndsWord(c)
  {
  }

  lemma PartsTextCons(part: Part, parts: seq<Part>)
    ensures PartsText([part] + parts) == PartText(part) + PartsText(parts)
    ensures PartsMeaning([part] + parts) == PartMeaning(part) + PartsMeaning(parts)
  {
    assert ([part] + parts)[1..] == parts;
  }

  lemma FirstPart(parts: seq<Part>, tail: string)
    requires parts != []
    ensures PartsText(parts) + tail == PartText(parts[0]) + (PartsText(parts[1..]) + tail)
  {
  }

  lemma ScanEnd(rest: string)
    ensures ScanString("" + ("\"" + rest)) == Some(("", rest))
  {
    var s := "" + ("\"" + rest);
    assert s[0] == '"' && s[1..] == rest;
  }

  lemma {:induction false} ScanClosed(parts: seq<Part>, rest: string)
    requires AreParts(parts)
    ensures ScanString(PartsText(parts) + ("\"" + rest)) == Some((PartsMeaning(parts), rest))
    decreases |parts|
  {
    if parts == [] {
      ScanEnd(rest);
    } else {
      ScanClosed(parts[1..], rest);
      ScanPart(parts[0], PartsText(parts[1..]) + ("\"" + rest));
      FirstPart(parts, "\"" + rest);
    }
  }

  /** One part, with at least one character behind it. */
  lemma ScanPart(part: Part, later: string)
    requires IsPart(part)
    ensures ScanString(PartText(part) + later) == Prepend(PartMeaning(part), ScanString(later))
  {
    var s := PartText(part) + later;
    assert part.Escaped? ==> s[2..] == later;
    assert part.Plain? ==> s[1..] == later;
  }

  lemma {:induction false} ScanUnclosed(parts: seq<Part>, dangling: bool)
    requires AreParts(parts)
    ensures ScanString(PartsText(parts) + if dangling then "\\" else "") == None
    decreases |parts|
  {
    var tail := if dangling then "\\" else "";
    if parts == [] {
      assert PartsText(parts) + tail == tail;
      assert dangling ==> tail[1..] == "" && ScanString("") == None;
    } else {
      ScanUnclosed(parts[1..], dangling);
      ScanPart(parts[0], PartsText(parts[1..]) + tail);
      FirstPart(parts, tail);
    }
  }

  lemma {:induction false} NameLength(word: string, rest: string)
    requires forall i :: 0 <= i < |word| ==> !EndsWord(word[i])
    requires rest == "" || EndsWord(rest[0])
    ensures SymbolLength(word + rest) == |word|
  {
    if word == "" {
      assert word + rest == rest;
      assert rest != "" ==> !IsSymbolChar(rest[0]) by { if rest != "" { SymbolCharsAre(rest[0]); } }
    } else {
      assert (word + rest)[1..] == word[1..] + rest;
      SymbolCharsAre(word[0]);
      NameLength(word[1..], rest);
    }
  }

  /** `x` is scanned at the start of `s`, up to `rest`. */
  predicate Scans(s: string, x: Lexeme, rest: string, numeral: Numeral) {
    s != "" && Taken(LexOne(s, numeral).0) == Tokens(x, numeral) && LexOne(s, numeral).1 == rest
  }

  lemma Sides(a: string, rest: string)
    ensures (a + rest)[..|a|] == a && (a + rest)[|a|..] == rest
  {
  }

  lemma LexName(word: string, rest: string, numeral: Numeral)
    requires Stands(Name(word), rest)
    ensures Scans(word + rest, Name(word), rest, numeral)
  {
    var s := word + rest;
    NameLength(word, rest);
    SymbolCharsAre(word[0]);
    Sides(word, rest);
    assert s[0] == word[0];
  }

  lemma LexText(parts: seq<Part>, rest: string, numeral: Numeral)
    requires AreParts(parts)
    ensures Scans(LexemeText(Text(parts)) + rest, Text(parts), rest, numeral)
  {
    ScanClosed(parts, rest);
    Quoting(PartsText(parts), rest);
    LexString("\"" + (PartsText(parts) + ("\"" + rest)), numeral);
  }

  lemma LexString(s: string, numeral: Numeral)
    requires s != "" && s[0] == '"'
    ensures LexOne(s, numeral) ==
            match ScanString(s[1..])
            case None => (Some(UnclosedQuote), "")
            case Some((text, rest)) => (Some(Quoted(text)), rest)
  {
  }

  lemma Quoting(body: string, rest: string)
    ensures "\"" + (body + ("\"" + rest)) == "\"" + (body + "\"") + rest
    ensures ("\"" + (body + ("\"" + rest)))[1..] == body + ("\"" + rest)
    ensures "\"" + body + "" == "\"" + body
  {
  }

  lemma LexUnclosed(parts: seq<Part>, dangling: bool, numeral: Numeral)
    requires AreParts(parts)
    ensures Scans(LexemeText(Unclosed(parts, dangling)) + "", Unclosed(parts, dangling), "", numeral)
  {
    var s := LexemeText(Unclosed(parts, dangling)) + "";
    ScanUnclosed(parts, dangling);
    assert s[0] == '"' && s[1..] == PartsText(parts) + if dangling then "\\" else "";
  }

  lemma LexMark(x: Lexeme, rest: string, numeral: Numeral)
    requires Stands(x, rest) && (x.Blank? || x.Tick? || x.StrayTick? || x.OpenParen? || x.CloseParen?)
    ensures Scans(LexemeText(x) + rest, x, rest, numeral)
  {
    var s := LexemeText(x) + rest;
    assert s[1..] == rest && s[..0] == "";
    assert rest != "" ==> s[1] == rest[0];
  }

  /** The first token, and what is still to be looked at. */
  lemma LexOneIs(x: Lexeme, rest: string, numeral: Numeral)
    requires Stands(x, rest)
    ensures Scans(LexemeText(x) + rest, x, rest, numeral)
  {
    match x {
      case Name(word) => LexName(word, rest, numeral);
      case Text(parts) => LexText(parts, rest, numeral);
      case Unclosed(parts, dangling) => LexUnclosed(parts, dangling, numeral);
      case Comment(text) => assert (";" + text + rest)[0] == ';';
      case _ => LexMark(x, rest, numeral);
    }
  }

  /** Whatever lexemes a line consists of, the scanner finds their tokens. */
  lemma {:induction false} LexMeetsLine(xs: seq<Lexeme>, line: string, numeral: Numeral)
    requires IsLineOf(xs, line)
    ensures Lex(line, numeral) == LineTokens(xs, numeral)
    decreases |xs|
  {
    if xs != [] {
      var n := |LexemeText(xs[0])|;
      assert line == LexemeText(xs[0]) + line[n..];
      LexOneIs(xs[0], line[n..], numeral);
      LexMeetsLine(xs[1..], line[n..], numeral);
    }
  }

  // ---------- and every line consists of some ----------

  /** What follows the parts of a string: its closing quote, or the end of the line. */
  datatype StringEnd = Closed(rest: string) | Open(dangling: bool)

  function EndText(end: StringEnd): string {
    match end case Closed(rest) => "\"" + rest case Open(dangling) => if dangling then "\\" else ""
  }

  function AddPart(part: Part, r: (seq<Part>, StringEnd)): (seq<Part>, StringEnd) {
    ([part] + r.0, r.1)
  }

  /** A string from behind its opening quote. */
  function SplitString(s: string): (seq<Part>, StringEnd)
    decreases |s|
  {
    if s == "" then ([], StringEnd.Open(false))
    else if s[0] == '"' then ([], Closed(s[1..]))
    else if s == "\\" then ([], StringEnd.Open(true))
    else if s[0] == '\\' then AddPart(Escaped(s[1]), SplitString(s[2..]))
    else AddPart(Plain(s[0]), SplitString(s[1..]))
  }

  lemma AddedPart(part: Part, r: (seq<Part>, StringEnd))
    ensures PartsText(AddPart(part, r).0) + EndText(AddPart(part, r).1) ==
            PartText(part) + (PartsText(r.0) + EndText(r.1))
  {
    PartsTextCons(part, r.0);
  }

  lemma {:induction false} SplitStringIs(s: string)
    ensures var (parts, end) := SplitString(s); AreParts(parts) && s == PartsText(parts) + EndText(end)
    decreases |s|
  {
    if s != "" && s[0] != '"' && s != "\\" {
      var part := if s[0] == '\\' then Escaped(s[1]) else Plain(s[0]);
      var later := s[|PartText(part)|..];
      SplitStringIs(later);
      AddedPart(part, SplitString(later));
      assert s == PartText(part) + later;
    }
  }

  function NameEnd(s: string): (n: nat)
    ensures n <= |s| && forall i :: 0 <= i < n ==> !EndsWord(s[i])
    ensures n < |s| ==> EndsWord(s[n])
  {
    if s == "" || EndsWord(s[0]) then 0 else 1 + NameEnd(s[1..])
  }

  function StringLexeme(s: string): Lexeme {
    var (parts, end) := SplitString(s);
    match end case Closed(_) => Text(parts) case Open(dangling) => Unclosed(parts, dangling)
  }

  function FirstLexeme(s: string): Lexeme
    requires s != ""
  {
    if s[0] == ';' then Comment(s[1..])
    else if s[0] == '(' then OpenParen
    else if s[0] == ')' then CloseParen
    else if s[0] == '\'' then (if |s| >= 2 && s[1] == '(' then Tick else StrayTick)
    else if s[0] == '"' then StringLexeme(s[1..])
    else if EndsWord(s[0]) then Blank(s[0])
    else Name(s[..NameEnd(s)])
  }

  /** `s` begins with the lexeme, in its place. */
  predicate Begins(s: string, x: Lexeme) {
    var n := |LexemeText(x)|;
    0 < n <= |s| && s[..n] == LexemeText(x) && Stands(x, s[n..])
  }

  lemma BeginsWith(x: Lexeme, rest: string)
    requires LexemeText(x) != "" && Stands(x, rest)
    ensures Begins(LexemeText(x) + rest, x)
  {
    Sides(LexemeText(x), rest);
  }

  lemma StringBegins(s: string)
    ensures Begins("\"" + s, StringLexeme(s))
  {
    SplitStringIs(s);
    var (parts, end) := SplitString(s);
    match end {
      case Closed(rest) =>
        BeginsWith(Text(parts), rest);
        Quoting(PartsText(parts), rest);
      case Open(dangling) =>
        BeginsWith(Unclosed(parts, dangling), "");
        Quoting(s, "");
    }
  }

  lemma FirstLexemeBegins(s: string)
    requires s != ""
    ensures Begins(s, FirstLexeme(s))
  {
    if s[0] == '"' {
      assert s == "\"" + s[1..];
      StringBegins(s[1..]);
    } else if s[0] == ';' {
      assert s == LexemeText(Comment(s[1..]));
    }
  }

  lemma {:induction false} SplitLine(line: string) returns (xs: seq<Lexeme>)
    ensures IsLineOf(xs, line)
    decreases |line|
  {
    if line == "" {
      xs := [];
    } else {
      var x := FirstLexeme(line);
      FirstLexemeBegins(line);
      var later := SplitLine(line[|LexemeText(x)|..]);
      xs := [x] + later;
      assert xs[1..] == later;
    }
  }

  /** Every line consists of lexemes, and its tokens are theirs, however it is taken apart. */
  lemma EveryLineIsRead(line: string, numeral: Numeral)
    ensures exists xs :: IsLineOf(xs, line)
    ensures forall xs :: IsLineOf(xs, line) ==> Lex(line, numeral) == LineTokens(xs, numeral)
  {
    var split := SplitLine(line);
    forall xs | IsLineOf(xs, line)
      ensures Lex(line, numeral) == LineTokens(xs, numeral)
    {
      LexMeetsLine(xs, line, numeral);
    }
  }
}
