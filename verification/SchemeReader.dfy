/**
 The s-expression reader of codegen/scmexpr.py: a stack machine that scans its input line by line.

 `Lex` and `Read` say what the reader computes, `Parser` below is the reader itself, and the grammar
 it is compared with is `Flat`: the tokens that spell a forest.
 Which words Python turns into numbers is a parameter, `numeral`.
 */
module SchemeReader {
  import opened TextLines
  import opened Wrappers

  datatype Sexp = Str(text: string) | Num(text: string) | List(items: seq<Sexp>)

  datatype Token = Open | Close | Quoted(text: string) | Word(value: Sexp) | UnclosedQuote

  datatype Located = Located(token: Token, line: nat)

  datatype ReadError =
    | CloseWithoutOpen(line: nat)
    | StringOutside(line: nat)
    | IdentifierOutside(line: nat)
    | UnclosedString(line: nat)
    | UnclosedParentheses(line: nat, openLines: seq<nat>)

  /** The expressions yielded before the reader stopped, and the error it stopped with. */
  datatype Parsed = Parsed(forest: seq<Sexp>, error: Option<ReadError>)

  type Numeral = string -> bool

  predicate IsSymbolChar(c: char) {
    !IsSpace(c) && c != '(' && c != ')' && c != ';' && c != '\'' && c != '"'
  }

  // ---------- one line ----------

  /** The characters an escape stands for: a backslash before any other character is kept. */
  function Escape(c: char): string {
    if c == 'n' then "\n" else if c == 'r' then "\r" else if c == 't' then "\t" else ['\\', c]
  }

  function Prepend(prefix: string, scanned: Option<(string, string)>): Option<(string, string)> {
    match scanned
    case None => None
    case Some((text, rest)) => Some((prefix + text, rest))
  }

  /** A string, from behind its opening quote: its text, and what follows its closing quote. */
  function ScanString(s: string): (r: Option<(string, string)>)
    ensures r.Some? ==> |r.value.1| < |s|
  {
    if s == [] then None
    else if |s| >= 2 && s[0] == '\\' then Prepend(Escape(s[1]), ScanString(s[2..]))
    else if s[0] == '"' then Some(([], s[1..]))
    else Prepend([s[0]], ScanString(s[1..]))
  }

  function SymbolLength(s: string): (n: nat)
    ensures n <= |s|
    ensures forall i :: 0 <= i < n ==> IsSymbolChar(s[i])
    ensures n < |s| ==> !IsSymbolChar(s[n])
  {
    if s == [] || !IsSymbolChar(s[0]) then 0 else 1 + SymbolLength(s[1..])
  }

  function Symbol(word: string, numeral: Numeral): Sexp {
    if numeral(word) then Num(word) else Str(word)
  }

  /** The first token of `s`, if it starts with one, and the characters still to be looked at. */
  function LexOne(s: string, numeral: Numeral): (r: (Option<Token>, string))
    requires s != []
    ensures |r.1| < |s|
  {
    if IsSpace(s[0]) then (None, s[1..])
    else if s[0] == ';' then (None, "")
    else if |s| >= 2 && s[0] == '\'' && s[1] == '(' then (None, s[1..])
    else if s[0] == '(' then (Some(Open), s[1..])
    else if s[0] == ')' then (Some(Close), s[1..])
    else if s[0] == '"' then
      match ScanString(s[1..])
      case None => (Some(UnclosedQuote), "")
      case Some((text, rest)) => (Some(Quoted(text)), rest)
    else
      var n := SymbolLength(s);
      (Some(Word(Symbol(s[..n], numeral))), if n == 0 then s[1..] else s[n..])
  }

  function Taken(token: Option<Token>): seq<Token> {
    match token case None => [] case Some(t) => [t]
  }

  function Lex(s: string, numeral: Numeral): seq<Token>
    decreases |s|
  {
    if s == [] then [] else
    var (token, rest) := LexOne(s, numeral);
    Taken(token) + Lex(rest, numeral)
  }

  // ---------- all lines ----------

  function Locate(tokens: seq<Token>, line: nat): seq<Located> {
    seq(|tokens|, i requires 0 <= i < |tokens| => Located(tokens[i], line))
  }

  /** The tokens of the lines from index `k` on. */
  function LexLines(lines: seq<string>, k: nat, numeral: Numeral): seq<Located>
    decreases |lines| - k
  {
    if k >= |lines| then [] else Locate(Lex(lines[k], numeral), k + 1) + LexLines(lines, k + 1, numeral)
  }

  datatype Machine = Machine(stack: seq<seq<Sexp>>, openlines: seq<nat>, forest: seq<Sexp>)

  const START := Machine([], [], [])

  function AddItem(stack: seq<seq<Sexp>>, item: Sexp): seq<seq<Sexp>>
    requires stack != []
  {
    stack[|stack| - 1 := stack[|stack| - 1] + [item]]
  }

  function Feed(m: Machine, t: Located): (r: Result<Machine, ReadError>)
    requires |m.stack| == |m.openlines|
    ensures r.Ok? ==> |r.value.stack| == |r.value.openlines|
  {
    match t.token
    case Open => Ok(m.(stack := m.stack + [[]], openlines := m.openlines + [t.line]))
    case Close =>
      if m.stack == [] then Err(CloseWithoutOpen(t.line)) else
      var top := |m.stack| - 1;
      var closed, popped := List(m.stack[top]), m.stack[..top];
      Ok(if popped != [] then Machine(AddItem(popped, closed), m.openlines[..top], m.forest)
         else Machine([], [], m.forest + [closed]))
    case Quoted(text) =>
      if m.stack == [] then Err(StringOutside(t.line)) else Ok(m.(stack := AddItem(m.stack, Str(text))))
    case UnclosedQuote => Err(if m.stack == [] then StringOutside(t.line) else UnclosedString(t.line))
    case Word(value) =>
      if m.stack == [] then Err(IdentifierOutside(t.line)) else Ok(m.(stack := AddItem(m.stack, value)))
  }

  function Read(m: Machine, ts: seq<Located>, lineCount: nat): Parsed
    requires |m.stack| == |m.openlines|
    decreases |ts|
  {
    if ts == [] then
      Parsed(m.forest, if m.stack == [] then None else Some(UnclosedParentheses(lineCount, m.openlines)))
    else
      match Feed(m, ts[0])
      case Err(e) => Parsed(m.forest, Some(e))
      case Ok(next) => Read(next, ts[1..], lineCount)
  }

  /** What the reader yields for a file with these lines. */
  function ParseResult(lines: seq<string>, numeral: Numeral): Parsed {
    Read(START, LexLines(lines, 0, numeral), |lines|)
  }

  // ---------- the reader ----------

  lemma LocateCons(t: Token, ts: seq<Token>, line: nat)
    ensures Locate([t] + ts, line) == [Located(t, line)] + Locate(ts, line)
  {
  }

  lemma PrependTwice(a: string, b: string, r: Option<(string, string)>)
    ensures Prepend(a, Prepend(b, r)) == Prepend(a + b, r)
    ensures Prepend("", r) == r
  {
    if r.Some? {
      assert a + (b + r.value.0) == a + b + r.value.0;
      assert "" + r.value.0 == r.value.0;
    }
  }

  /** The string scanned from `i` on, when `text` has been read before it. */
  function ScanFrom(line: string, i: nat, text: string): Option<(string, string)>
    requires i <= |line|
  {
    Prepend(text, ScanString(line[i..]))
  }

  /** One round of the string loop, by the character it looks at. */
  lemma ScanStep(line: string, i: nat, text: string)
    requires i < |line|
    ensures ScanFrom(line, i, text) ==
            if i + 1 < |line| && line[i] == '\\' then ScanFrom(line, i + 2, text + Escape(line[i + 1]))
            else if line[i] == '"' then Some((text, line[i + 1..]))
            else ScanFrom(line, i + 1, text + [line[i]])
  {
    var rest := line[i..];
    assert rest[1..] == line[i + 1..];
    if i + 1 < |line| && line[i] == '\\' {
      assert rest[2..] == line[i + 2..];
      PrependTwice(text, Escape(line[i + 1]), ScanString(line[i + 2..]));
    } else if line[i] != '"' {
      PrependTwice(text, [line[i]], ScanString(line[i + 1..]));
    } else {
      assert text + [] == text;
    }
  }

  lemma SliceOfSlice(line: string, i: nat, n: nat)
    requires i + n <= |line|
    ensures line[i..][n..] == line[i + n..] && line[i..][..n] == line[i..i + n]
  {
  }

  class Parser {
    const numeral: Numeral
    var stack: seq<seq<Sexp>>
    var openlines: seq<nat>
    var forest: seq<Sexp>

    constructor (numeral: Numeral)
      ensures this.numeral == numeral && Now() == START
    {
      this.numeral := numeral;
      stack, openlines, forest := [], [], [];
    }

    function Now(): Machine
      reads this
    {
      Machine(stack, openlines, forest)
    }

    /** The inner loop over a quoted string that starts at `pos`. */
    method ReadString(line: string, pos: nat) returns (text: string, endpos: nat)
      requires pos < |line| && line[pos] == '"'
      ensures pos < endpos <= |line|
      ensures if endpos == |line| then ScanString(line[pos + 1..]).None?
              else ScanString(line[pos + 1..]) == Some((text, line[endpos + 1..]))
    {
      endpos := pos + 1;
      text := "";
      ghost var scanned := ScanFrom(line, pos + 1, text);
      PrependTwice("", "", ScanString(line[pos + 1..]));
      while endpos < |line|
        invariant pos < endpos <= |line|
        invariant scanned == ScanFrom(line, endpos, text)
      {
        ScanStep(line, endpos, text);
        if endpos + 1 < |line| && line[endpos] == '\\' {
          endpos := endpos + 1;
          if line[endpos] == 'n' {
            text := text + "\n";
          } else if line[endpos] == 'r' {
            text := text + "\r";
          } else if line[endpos] == 't' {
            text := text + "\t";
          } else {
            text := text + ['\\', line[endpos]];
          }
        } else if line[endpos] == '"' {
          return;
        } else {
          text := text + [line[endpos]];
        }
        endpos := endpos + 1;
      }
    }

    /** The inner loop over a symbol. */
    method ReadSymbol(line: string, pos: nat) returns (endpos: nat)
      requires pos < |line|
      ensures endpos == pos + SymbolLength(line[pos..])
    {
      endpos := pos;
      while endpos < |line| && IsSymbolChar(line[endpos])
        invariant pos <= endpos <= |line|
        invariant SymbolLength(line[pos..]) == endpos - pos + SymbolLength(line[endpos..])
      {
        assert line[endpos..][1..] == line[endpos + 1..];
        endpos := endpos + 1;
      }
    }

    /** One round of the character loop: at most one token is read, and the scan position moves
        forward in every round. */
    method Round(line: string, pos: nat, lineno: nat)
        returns (next: nat, error: Option<ReadError>, ghost token: Option<Token>)
      requires pos < |line| && |stack| == |openlines|
      modifies this
      ensures |stack| == |openlines|
      ensures match token
              case None => error.None? && Now() == old(Now())
              case Some(t) =>
                Feed(old(Now()), Located(t, lineno)) == if error.Some? then Err(error.value) else Ok(Now())
      ensures token == LexOne(line[pos..], numeral).0
      ensures error.None? ==> pos < next <= |line| && line[next..] == LexOne(line[pos..], numeral).1
      ensures error.Some? ==> forest == old(forest)
    {
      next, error, token := pos, None, LexOne(line[pos..], numeral).0;
      SliceOfSlice(line, pos, 1);
      if IsSpace(line[pos]) {
      } else if line[pos] == ';' {
        next := |line|;
        return;
      } else if pos + 1 < |line| && line[pos] == '\'' && line[pos + 1] == '(' {
      } else if line[pos] == '(' || line[pos] == ')' {
        error := TakeParenthesis(line[pos], lineno);
      } else if line[pos] == '"' {
        next, error := TakeQuoted(line, pos, lineno);
      } else {
        SliceOfSlice(line, pos, SymbolLength(line[pos..]));
        next, error := TakeWord(line, pos, lineno);
      }
      next := next + 1;
    }

    ghost predicate Took(before: Machine, token: Token, lineno: nat, error: Option<ReadError>)
      requires |before.stack| == |before.openlines|
      reads this
    {
      && |stack| == |openlines| && (error.Some? ==> forest == before.forest)
      && Feed(before, Located(token, lineno)) == if error.Some? then Err(error.value) else Ok(Now())
    }

    method TakeParenthesis(c: char, lineno: nat) returns (error: Option<ReadError>)
      requires |stack| == |openlines|
      modifies this
      ensures Took(old(Now()), if c == '(' then Open else Close, lineno, error)
    {
      error := None;
      if c == '(' {
        stack := stack + [[]];
        openlines := openlines + [lineno];
      } else if |stack| == 0 {
        error := Some(CloseWithoutOpen(lineno));
      } else {
        CloseList();
      }
    }

    method TakeQuoted(line: string, pos: nat, lineno: nat) returns (next: nat, error: Option<ReadError>)
      requires pos < |line| && line[pos] == '"' && |stack| == |openlines|
      modifies this
      ensures match ScanString(line[pos + 1..])
              case None => error.Some? && Took(old(Now()), UnclosedQuote, lineno, error)
              case Some((text, rest)) =>
                && Took(old(Now()), Quoted(text), lineno, error)
                && (error.None? ==> pos < next < |line| && rest == line[next + 1..])
    {
      next := pos;
      if |stack| == 0 {
        error := Some(StringOutside(lineno));
      } else {
        next, error := TakeString(line, pos, lineno);
      }
    }

    method TakeWord(line: string, pos: nat, lineno: nat) returns (next: nat, error: Option<ReadError>)
      requires pos < |line| && |stack| == |openlines|
      modifies this
      ensures var n := SymbolLength(line[pos..]);
              && Took(old(Now()), Word(Symbol(line[pos..pos + n], numeral)), lineno, error)
              && (error.None? ==> next + 1 == (if n == 0 then pos + 1 else pos + n) <= |line|)
    {
      next, error := pos, None;
      if |stack| == 0 {
        error := Some(IdentifierOutside(lineno));
      } else {
        next := TakeSymbol(line, pos);
      }
    }

    method TakeString(line: string, pos: nat, lineno: nat) returns (next: nat, error: Option<ReadError>)
      requires pos < |line| && line[pos] == '"' && stack != [] && |stack| == |openlines|
      modifies this`stack
      ensures |stack| == |openlines|
      ensures match ScanString(line[pos + 1..])
              case None => error == Some(UnclosedString(lineno)) && stack == old(stack)
              case Some((text, rest)) =>
                error.None? && pos < next < |line| && rest == line[next + 1..] &&
                stack == AddItem(old(stack), Str(text))
    {
      var text, endpos := ReadString(line, pos);
      next, error := endpos, None;
      if endpos == |line| {
        error := Some(UnclosedString(lineno));
      } else {
        stack := AddItem(stack, Str(text));
      }
    }

    method TakeSymbol(line: string, pos: nat) returns (next: nat)
      requires pos < |line| && stack != [] && |stack| == |openlines|
      modifies this`stack
      ensures |stack| == |openlines|
      ensures var n := SymbolLength(line[pos..]);
              && next + 1 == (if n == 0 then pos + 1 else pos + n) <= |line|
              && stack == AddItem(old(stack), Symbol(line[pos..pos + n], numeral))
    {
      var endpos := ReadSymbol(line, pos);
      var symbol := line[pos..endpos];
      next := if endpos - 1 > pos then endpos - 1 else pos;
      stack := AddItem(stack, Symbol(symbol, numeral));
    }

    method AppendItem(item: Sexp)
      requires stack != []
      modifies this`stack
      ensures stack == AddItem(old(stack), item)
    {
      stack := AddItem(stack, item);
    }

    method CloseList()
      requires stack != [] && |stack| == |openlines|
      modifies this
      ensures Feed(old(Now()), Located(Close, 0)) == Ok(Now())
      ensures |stack| == |openlines|
    {
      var closed := stack[|stack| - 1];
      stack := stack[..|stack| - 1];
      openlines := openlines[..|openlines| - 1];
      if stack != [] {
        AppendItem(List(closed));
      } else {
        forest := forest + [List(closed)];
      }
    }

    /** scmexpr.parse, driven to its end. */
    method Parse(lines: seq<string>) returns (p: Parsed)
      requires Now() == START
      modifies this
      ensures p == ParseResult(lines, numeral)
    {
      ghost var result := ParseResult(lines, numeral);
      var lineno := 0;
      while lineno < |lines|
        invariant lineno <= |lines| && |stack| == |openlines|
        invariant result == Read(Now(), LexLines(lines, lineno, numeral), |lines|)
      {
        var line := lines[lineno];
        lineno := lineno + 1;
        ghost var later := LexLines(lines, lineno, numeral);
        var pos := 0;
        assert line[0..] == line;
        while pos < |line|
          invariant pos <= |line| && |stack| == |openlines|
          invariant result == Read(Now(), Locate(Lex(line[pos..], numeral), lineno) + later, |lines|)
        {
          ghost var tokens, before := Lex(line[pos..], numeral), Now();
          var next, error, token := Round(line, pos, lineno);
          if error.Some? {
            ReadOne(before, tokens, lineno, later, |lines|);
            return Parsed(forest, error);
          }
          if token.Some? {
            ReadOne(before, tokens, lineno, later, |lines|);
            assert tokens[1..] == Lex(line[next..], numeral);
          } else {
            assert tokens == Lex(line[next..], numeral);
          }
          pos := next;
        }
        assert Locate([], lineno) + later == later;
      }
      p := Parsed(forest, if stack == [] then None else Some(UnclosedParentheses(lineno, openlines)));
    }
  }

  lemma ReadOne(m: Machine, tokens: seq<Token>, line: nat, later: seq<Located>, lineCount: nat)
    requires tokens != [] && |m.stack| == |m.openlines|
    ensures Read(m, Locate(tokens, line) + later, lineCount) ==
            var fed := Feed(m, Located(tokens[0], line));
            if fed.Err? then Parsed(m.forest, Some(fed.error))
            else Read(fed.value, Locate(tokens[1..], line) + later, lineCount)
  {
    var ts := Locate(tokens, line) + later;
    assert ts[0] == Located(tokens[0], line);
    assert ts[1..] == Locate(tokens[1..], line) + later;
  }
}
