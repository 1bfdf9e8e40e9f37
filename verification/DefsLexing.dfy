/** How the lines that write_defs writes are read back, token by token. */
module DefsLexing {
  import opened TextLines
  import opened Wrappers
  import opened SchemeReader
  import opened SchemeGrammar
  import opened Definitions

  function MarksOf(tokens: seq<Token>): seq<Mark> {
    seq(|tokens|, i requires 0 <= i < |tokens| => MarkOf(tokens[i]))
  }

  /** The marks that a line consists of. */
  function LexMarks(s: string, numeral: Numeral): seq<Mark> {
    MarksOf(Lex(s, numeral))
  }

  lemma MarksOfAppend(a: seq<Token>, b: seq<Token>)
    ensures MarksOf(a + b) == MarksOf(a) + MarksOf(b)
  {
  }

  /** The first token of a line, and what is left behind it. */
  lemma LexMarksStep(s: string, numeral: Numeral, token: Option<Token>, rest: string)
    requires s != [] && LexOne(s, numeral) == (token, rest)
    ensures LexMarks(s, numeral) ==
            if token.Some? then [MarkOf(token.value)] + LexMarks(rest, numeral) else LexMarks(rest, numeral)
  {
    var tokens := Lex(rest, numeral);
    if token.Some? {
      MarksOfAppend([token.value], tokens);
      assert Taken(token) == [token.value] && MarksOf([token.value]) == [MarkOf(token.value)];
    } else {
      assert [] + tokens == tokens;
    }
  }

  lemma LexSkip(c: char, s: string, numeral: Numeral)
    requires IsSpace(c)
    ensures LexMarks([c] + s, numeral) == LexMarks(s, numeral)
  {
    assert ([c] + s)[1..] == s;
    LexMarksStep([c] + s, numeral, None, s);
  }

  lemma LexOpen(s: string, numeral: Numeral)
    ensures LexMarks("(" + s, numeral) == [OpenMark] + LexMarks(s, numeral)
  {
    assert ("(" + s)[1..] == s;
    LexMarksStep("(" + s, numeral, Some(Open), s);
  }

  lemma LexQuotedOpen(s: string, numeral: Numeral)
    ensures LexMarks("'(" + s, numeral) == [OpenMark] + LexMarks(s, numeral)
  {
    assert ("'(" + s)[1..] == "(" + s;
    LexMarksStep("'(" + s, numeral, None, "(" + s);
    LexOpen(s, numeral);
  }

  lemma LexClose(s: string, numeral: Numeral)
    ensures LexMarks(")" + s, numeral) == [CloseMark] + LexMarks(s, numeral)
  {
    assert (")" + s)[1..] == s;
    LexMarksStep(")" + s, numeral, Some(Close), s);
  }

  // ---------- words ----------

  predicate IsWord(w: string) {
    w != "" && forall i :: 0 <= i < |w| ==> IsSymbolChar(w[i])
  }

  lemma {:induction false} SymbolLengthOfWord(w: string, rest: string)
    requires forall i :: 0 <= i < |w| ==> IsSymbolChar(w[i])
    requires rest == "" || !IsSymbolChar(rest[0])
    ensures SymbolLength(w + rest) == |w|
  {
    if w == "" {
      assert w + rest == rest;
    } else {
      assert (w + rest)[1..] == w[1..] + rest;
      SymbolLengthOfWord(w[1..], rest);
    }
  }

  lemma LexWord(w: string, rest: string, numeral: Numeral)
    requires IsWord(w) && (rest == "" || !IsSymbolChar(rest[0]))
    ensures LexMarks(w + rest, numeral) == [Leaf(Symbol(w, numeral))] + LexMarks(rest, numeral)
  {
    var s := w + rest;
    SymbolLengthOfWord(w, rest);
    assert IsSymbolChar(s[0]);
    assert s[..|w|] == w && s[|w|..] == rest;
    LexMarksStep(s, numeral, Some(Word(Symbol(w, numeral))), rest);
  }

  // ---------- strings ----------

  /** Strings that the reader returns as they were written between quotes: every quote in them is
      behind a backslash, no backslash starts an escape and none is left over at the end. */
  predicate Faithful(v: string) {
    if v == "" then true
    else if v[0] == '"' then false
    else if v[0] == '\\' then |v| >= 2 && v[1] != 'n' && v[1] != 'r' && v[1] != 't' && Faithful(v[2..])
    else Faithful(v[1..])
  }

  /** Exactly the faithful strings survive being written and read. */
  lemma {:induction false} StringSurvivesWhenFaithful(v: string, rest: string)
    ensures ScanString(v + ("\"" + rest)) == Some((v, rest)) <==> Faithful(v)
  {
    var s := v + ("\"" + rest);
    if v == "" {
      assert s == "\"" + rest && s[1..] == rest;
    } else if v[0] == '"' {
      assert |ScanString(s).value.1| == |s| - 1;
    } else if v[0] == '\\' && |v| == 1 {
      assert s[2..] == rest;
    } else if v[0] == '\\' {
      assert s[2..] == v[2..] + ("\"" + rest);
      StringSurvivesWhenFaithful(v[2..], rest);
      EscapeTells(v, ScanString(s[2..]), rest);
    } else {
      assert s[1..] == v[1..] + ("\"" + rest);
      StringSurvivesWhenFaithful(v[1..], rest);
      assert [v[0]] == v[..1];
      PrefixTells(v, 1, ScanString(s[1..]), rest);
    }
  }

  lemma PrefixTells(v: string, k: nat, scanned: Option<(string, string)>, rest: string)
    requires k <= |v|
    ensures Prepend(v[..k], scanned) == Some((v, rest)) <==> scanned == Some((v[k..], rest))
  {
    if scanned.Some? {
      var text := scanned.value.0;
      assert v == v[..k] + v[k..];
      if v[..k] + text == v {
        assert text == (v[..k] + text)[k..];
      }
    }
  }

  lemma EscapeTells(v: string, scanned: Option<(string, string)>, rest: string)
    requires |v| >= 2 && v[0] == '\\'
    ensures Prepend(Escape(v[1]), scanned) == Some((v, rest)) <==>
            v[1] != 'n' && v[1] != 'r' && v[1] != 't' && scanned == Some((v[2..], rest))
  {
    if v[1] != 'n' && v[1] != 'r' && v[1] != 't' {
      assert Escape(v[1]) == v[..2];
      PrefixTells(v, 2, scanned, rest);
    } else if scanned.Some? {
      assert (Escape(v[1]) + scanned.value.0)[0] != '\\';
    }
  }

  lemma QuotedShape(v: string, rest: string)
    ensures var s := Quote(v) + rest; s[0] == '"' && s[1..] == v + ("\"" + rest)
  {
  }

  lemma LexQuoted(v: string, rest: string, numeral: Numeral)
    requires Faithful(v)
    ensures LexMarks(Quote(v) + rest, numeral) == [Leaf(Str(v))] + LexMarks(rest, numeral)
  {
    QuotedShape(v, rest);
    StringSurvivesWhenFaithful(v, rest);
    LexAfterQuote(Quote(v) + rest, v, rest, numeral);
  }

  lemma LexAfterQuote(s: string, v: string, rest: string, numeral: Numeral)
    requires s != "" && s[0] == '"' && ScanString(s[1..]) == Some((v, rest))
    ensures LexMarks(s, numeral) == [Leaf(Str(v))] + LexMarks(rest, numeral)
  {
    LexMarksStep(s, numeral, Some(Quoted(v)), rest);
  }

  // ---------- the written lines ----------

  lemma KeysAreWords(key: Key)
    ensures IsWord(KeyText(key))
  {
  }

  lemma CommandsAreWords(kind: Kind)
    ensures IsWord(Command(kind))
  {
  }

  /** Neither a key nor a command reads as a number. */
  ghost predicate KeywordsStaySymbols(numeral: Numeral) {
    && (forall key :: !numeral(KeyText(key)))
    && (forall kind :: !numeral(Command(kind)))
  }

  lemma LexLineEnd(numeral: Numeral)
    ensures LexMarks("\n", numeral) == []
    ensures LexMarks(")\n", numeral) == [CloseMark]
  {
    LexSkip('\n', "", numeral);
    assert ['\n'] + "" == "\n" && Lex("", numeral) == [];
    LexClose("\n", numeral);
    assert ")" + "\n" == ")\n";
  }

  lemma LexSpace(s: string, numeral: Numeral)
    ensures LexMarks(" " + s, numeral) == LexMarks(s, numeral)
  {
    LexSkip(' ', s, numeral);
  }

  lemma TwoSpaces(s: string)
    ensures "  " + s == " " + (" " + s)
  {
  }

  lemma LexIndent(s: string, numeral: Numeral)
    ensures LexMarks("  " + s, numeral) == LexMarks(s, numeral)
  {
    TwoSpaces(s);
    LexSpace(s, numeral);
    LexSpace(" " + s, numeral);
  }

  lemma OpenIndented(s: string)
    ensures "  (" + s == "  " + ("(" + s)
    ensures "    '(" + s == "  " + ("  " + ("'(" + s))
  {
    assert "    '(" == "  " + ("  " + "'(");
  }

  lemma LexClauseOpen(s: string, numeral: Numeral)
    ensures LexMarks("  (" + s, numeral) == [OpenMark] + LexMarks(s, numeral)
  {
    OpenIndented(s);
    LexIndent("(" + s, numeral);
    LexOpen(s, numeral);
  }

  lemma LexRowOpen(s: string, numeral: Numeral)
    ensures LexMarks("    '(" + s, numeral) == [OpenMark] + LexMarks(s, numeral)
  {
    OpenIndented(s);
    LexIndent("  " + ("'(" + s), numeral);
    LexIndent("'(" + s, numeral);
    LexQuotedOpen(s, numeral);
  }

  /** The last string of a clause or row, and its closing parenthesis. */
  lemma LexLastString(v: string, numeral: Numeral)
    requires Faithful(v)
    ensures LexMarks(" " + (Quote(v) + ")\n"), numeral) == [Leaf(Str(v)), CloseMark]
  {
    LexSpace(Quote(v) + ")\n", numeral);
    LexQuoted(v, ")\n", numeral);
    LexLineEnd(numeral);
  }

  lemma StartsBlank(c: char, s: string)
    requires IsSpace(c)
    ensures var rest := [c] + s; rest != "" && !IsSymbolChar(rest[0])
  {
  }

  lemma LexEntryLine(key: Key, value: string, numeral: Numeral)
    requires Faithful(value) && !numeral(KeyText(key))
    ensures LexMarks(ClauseLines(Entry(key, value))[0], numeral) ==
            [OpenMark, Leaf(Str(KeyText(key))), Leaf(Str(value)), CloseMark]
  {
    var rest := Quote(value) + ")\n";
    LexClauseOpen(KeyText(key) + (" " + rest), numeral);
    KeysAreWords(key);
    StartsBlank(' ', rest);
    LexWord(KeyText(key), " " + rest, numeral);
    LexLastString(value, numeral);
  }

  lemma LexTableHead(key: Key, numeral: Numeral)
    requires !numeral(KeyText(key))
    ensures LexMarks("  (" + (KeyText(key) + "\n"), numeral) == [OpenMark, Leaf(Str(KeyText(key)))]
  {
    LexClauseOpen(KeyText(key) + "\n", numeral);
    KeysAreWords(key);
    LexWord(KeyText(key), "\n", numeral);
    LexLineEnd(numeral);
  }

  lemma LexRowLine(row: (string, string), numeral: Numeral)
    requires Faithful(row.0) && Faithful(row.1)
    ensures LexMarks(RowLine(row), numeral) == [OpenMark, Leaf(Str(row.0)), Leaf(Str(row.1)), CloseMark]
  {
    var rest := " " + (Quote(row.1) + ")\n");
    LexRowOpen(Quote(row.0) + rest, numeral);
    LexQuoted(row.0, rest, numeral);
    LexLastString(row.1, numeral);
  }

  lemma LexTableEnd(numeral: Numeral)
    ensures LexMarks("  )\n", numeral) == [CloseMark]
  {
    assert "  )\n" == "  " + ")\n";
    LexIndent(")\n", numeral);
    LexLineEnd(numeral);
  }

  lemma LexHeadLine(d: Definition, numeral: Numeral)
    requires IsWord(d.name) && !numeral(d.name) && !numeral(Command(d.kind))
    ensures LexMarks(HeadLine(d), numeral) == [OpenMark, Leaf(Str(Command(d.kind))), Leaf(Str(d.name))]
  {
    var rest := d.name + "\n";
    LexOpen(Command(d.kind) + (" " + rest), numeral);
    CommandsAreWords(d.kind);
    StartsBlank(' ', rest);
    LexWord(Command(d.kind), " " + rest, numeral);
    LexSpace(rest, numeral);
    LexWord(d.name, "\n", numeral);
    LexLineEnd(numeral);
  }
}
