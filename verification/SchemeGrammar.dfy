/**
 The reader against the grammar of s-expressions: a form is spelled `(` forms `)`, an atom by its one
 token.  The reader yields exactly the forest whose spelling its input is, and stops with an error
 exactly where the nesting, or something outside it, is wrong.
 */
module SchemeGrammar {
  import opened Wrappers
  import opened SchemeReader

  datatype Mark = OpenMark | CloseMark | Leaf(value: Sexp) | BadMark

  function MarkOf(t: Token): Mark {
    match t
    case Open => OpenMark
    case Close => CloseMark
    case Quoted(text) => Leaf(Str(text))
    case Word(value) => Leaf(value)
    case UnclosedQuote => BadMark
  }

  function Marks(ts: seq<Located>): seq<Mark> {
    seq(|ts|, i requires 0 <= i < |ts| => MarkOf(ts[i].token))
  }

  // ---------- the grammar ----------

  function Flat(x: Sexp): seq<Mark> {
    match x
    case List(items) => [OpenMark] + FlatAll(items) + [CloseMark]
    case _ => [Leaf(x)]
  }

  function FlatAll(xs: seq<Sexp>): seq<Mark> {
    if xs == [] then [] else FlatAll(xs[..|xs| - 1]) + Flat(xs[|xs| - 1])
  }

  predicate AllLists(xs: seq<Sexp>) {
    forall i :: 0 <= i < |xs| ==> xs[i].List?
  }

  lemma {:induction false} FlatAllAppend(xs: seq<Sexp>, ys: seq<Sexp>)
    ensures FlatAll(xs + ys) == FlatAll(xs) + FlatAll(ys)
  {
    if ys == [] {
      assert xs + ys == xs;
    } else {
      var zs, y := ys[..|ys| - 1], ys[|ys| - 1];
      assert (xs + ys)[..|xs + ys| - 1] == xs + zs;
      FlatAllAppend(xs, zs);
    }
  }

  /** A token that spells a word or a string carries an atom, never a list. */
  predicate AtomsOnly(ts: seq<Located>) {
    forall i :: 0 <= i < |ts| ==> ts[i].token.Word? ==> !ts[i].token.value.List?
  }

  // ---------- what the machine has read so far ----------

  function Spelled(stack: seq<seq<Sexp>>): seq<Mark> {
    if stack == [] then [] else Spelled(stack[..|stack| - 1]) + [OpenMark] + FlatAll(stack[|stack| - 1])
  }

  function SpelledBy(m: Machine): seq<Mark> {
    FlatAll(m.forest) + Spelled(m.stack)
  }

  lemma AddItemSpells(stack: seq<seq<Sexp>>, item: Sexp)
    requires stack != []
    ensures Spelled(AddItem(stack, item)) == Spelled(stack) + Flat(item)
  {
    var top := |stack| - 1;
    var grown := AddItem(stack, item);
    assert grown[..top] == stack[..top];
    assert grown[top][..|stack[top]|] == stack[top];
  }

  lemma FeedSpells(m: Machine, t: Located)
    requires |m.stack| == |m.openlines| && AllLists(m.forest)
    requires t.token.Word? ==> !t.token.value.List?
    requires Feed(m, t).Ok?
    ensures SpelledBy(Feed(m, t).value) == SpelledBy(m) + [MarkOf(t.token)]
    ensures AllLists(Feed(m, t).value.forest)
  {
    match t.token {
      case Open => OpenSpells(m);
      case Close => CloseSpells(m, t);
      case Quoted(text) => AddItemSpells(m.stack, Str(text));
      case Word(value) => AddItemSpells(m.stack, value);
    }
  }

  lemma OpenSpells(m: Machine)
    ensures Spelled(m.stack + [[]]) == Spelled(m.stack) + [OpenMark]
  {
    assert (m.stack + [[]])[..|m.stack|] == m.stack;
    assert FlatAll([]) == [];
  }

  lemma CloseSpells(m: Machine, t: Located)
    requires |m.stack| == |m.openlines| && m.stack != [] && t.token.Close? && AllLists(m.forest)
    ensures SpelledBy(Feed(m, t).value) == SpelledBy(m) + [CloseMark]
  {
    var top := |m.stack| - 1;
    var popped, closed := m.stack[..top], List(m.stack[top]);
    var flat := Flat(closed);
    assert Spelled(m.stack) + [CloseMark] == Spelled(popped) + flat;
    if popped != [] {
      AddItemSpells(popped, closed);
    } else {
      assert (m.forest + [closed])[..|m.forest|] == m.forest;
      assert Spelled(popped) == [];
      assert Spelled([]) == [];
    }
  }

  lemma MarksCons(ts: seq<Located>)
    requires ts != []
    ensures Marks(ts) == [MarkOf(ts[0].token)] + Marks(ts[1..])
  {
  }

  /** Whatever the reader accepts is the spelling of what it yields. */
  lemma {:induction false} ReadIsSound(m: Machine, ts: seq<Located>, lineCount: nat)
    requires |m.stack| == |m.openlines| && AllLists(m.forest) && AtomsOnly(ts)
    requires Read(m, ts, lineCount).error.None?
    ensures FlatAll(Read(m, ts, lineCount).forest) == SpelledBy(m) + Marks(ts)
    ensures AllLists(Read(m, ts, lineCount).forest)
    decreases |ts|
  {
    if ts == [] {
      assert Spelled(m.stack) == [];
    } else {
      FeedSpells(m, ts[0]);
      var next := Feed(m, ts[0]).value;
      ReadIsSound(next, ts[1..], lineCount);
      MarksCons(ts);
      assert SpelledBy(m) + ([MarkOf(ts[0].token)] + Marks(ts[1..])) == SpelledBy(next) + Marks(ts[1..]);
    }
  }

  // ---------- every spelling is accepted ----------

  /** The machine after it has read the forms `xs` completely. */
  function After(m: Machine, xs: seq<Sexp>): (next: Machine)
    ensures next.openlines == m.openlines && |next.stack| == |m.stack|
  {
    if m.stack == [] then m.(forest := m.forest + xs)
    else m.(stack := m.stack[|m.stack| - 1 := m.stack[|m.stack| - 1] + xs])
  }

  lemma AfterTwice(m: Machine, xs: seq<Sexp>, ys: seq<Sexp>)
    ensures After(After(m, xs), ys) == After(m, xs + ys)
    ensures After(m, []) == m
  {
    if m.stack == [] {
      assert m.forest + xs + ys == m.forest + (xs + ys);
      assert m.forest + [] == m.forest;
    } else {
      var top := m.stack[|m.stack| - 1];
      assert top + xs + ys == top + (xs + ys);
      assert top + [] == top;
    }
  }

  lemma ReadStep(m: Machine, t: Located, ts: seq<Located>, lineCount: nat)
    requires |m.stack| == |m.openlines|
    ensures Read(m, [t] + ts, lineCount) ==
            if Feed(m, t).Err? then Parsed(m.forest, Some(Feed(m, t).error)) else Read(Feed(m, t).value, ts, lineCount)
  {
    assert ([t] + ts)[1..] == ts;
  }

  lemma MarksSlice(ts: seq<Located>, k: nat)
    requires k <= |ts|
    ensures Marks(ts[..k]) == Marks(ts)[..k] && Marks(ts[k..]) == Marks(ts)[k..]
    ensures ts == ts[..k] + ts[k..]
  {
  }

  lemma {:induction false} ReadForm(m: Machine, x: Sexp, ts: seq<Located>, rest: seq<Located>, lineCount: nat)
    requires |m.stack| == |m.openlines| && Marks(ts) == Flat(x) && (m.stack == [] ==> x.List?)
    ensures Read(m, ts + rest, lineCount) == Read(After(m, [x]), rest, lineCount)
    decreases |ts|, 0
  {
    assert |ts| == |Marks(ts)|;
    assert MarkOf(ts[0].token) == Marks(ts)[0];
    if x.List? {
      ReadList(m, x.items, ts, rest, lineCount);
    } else {
      assert ts == [ts[0]];
      ReadStep(m, ts[0], rest, lineCount);
    }
  }

  lemma {:induction false} ReadList(m: Machine, items: seq<Sexp>, ts: seq<Located>, rest: seq<Located>, lineCount: nat)
    requires |m.stack| == |m.openlines| && Marks(ts) == [OpenMark] + FlatAll(items) + [CloseMark]
    ensures Read(m, ts + rest, lineCount) == Read(After(m, [List(items)]), rest, lineCount)
    decreases |ts|, 0, 0
  {
    var n := |ts| - 1;
    assert |ts| == |Marks(ts)|;
    var open, inner, close := ts[0], ts[1..n], ts[n];
    assert MarkOf(open.token) == Marks(ts)[0] && MarkOf(close.token) == Marks(ts)[n];
    assert Marks(ts)[1..n] == FlatAll(items);
    assert Marks(inner) == Marks(ts)[1..n];
    var m1 := Machine(m.stack + [[]], m.openlines + [open.line], m.forest);
    var m2 := After(m1, items);
    assert ts + rest == [open] + (inner + ([close] + rest));
    ReadStep(m, open, inner + ([close] + rest), lineCount);
    ReadForms(m1, items, inner, [close] + rest, lineCount);
    ReadStep(m2, close, rest, lineCount);
    CloseList(m, items, open.line, close);
  }

  lemma CloseList(m: Machine, items: seq<Sexp>, line: nat, close: Located)
    requires |m.stack| == |m.openlines| && close.token.Close?
    ensures Feed(After(Machine(m.stack + [[]], m.openlines + [line], m.forest), items), close) ==
            Ok(After(m, [List(items)]))
  {
    var m2 := After(Machine(m.stack + [[]], m.openlines + [line], m.forest), items);
    var top := |m.stack|;
    assert m2.stack[top] == [] + items == items;
    assert m2.stack[..top] == m.stack;
    assert (m.openlines + [line])[..top] == m.openlines;
    if top == 0 {
      assert m == Machine([], [], m.forest);
    }
  }

  lemma {:induction false} ReadForms(m: Machine, xs: seq<Sexp>, ts: seq<Located>, rest: seq<Located>, lineCount: nat)
    requires |m.stack| == |m.openlines| && Marks(ts) == FlatAll(xs) && (m.stack == [] ==> AllLists(xs))
    ensures Read(m, ts + rest, lineCount) == Read(After(m, xs), rest, lineCount)
    decreases |ts|, 1
  {
    assert |ts| == |Marks(ts)|;
    if xs == [] {
      assert ts + rest == rest;
      AfterTwice(m, [], []);
    } else {
      var before, x := xs[..|xs| - 1], xs[|xs| - 1];
      var k := |FlatAll(before)|;
      MarksSlice(ts, k);
      assert |Flat(x)| > 0;
      assert ts + rest == ts[..k] + (ts[k..] + rest);
      ReadForms(m, before, ts[..k], ts[k..] + rest, lineCount);
      ReadForm(After(m, before), x, ts[k..], rest, lineCount);
      AfterTwice(m, before, [x]);
      assert before + [x] == xs;
    }
  }

  /** The reader yields `forest` without error exactly when its input spells that forest. */
  lemma ReaderMeetsGrammar(ts: seq<Located>, forest: seq<Sexp>, lineCount: nat)
    requires AtomsOnly(ts)
    ensures Read(START, ts, lineCount) == Parsed(forest, None) <==> AllLists(forest) && FlatAll(forest) == Marks(ts)
  {
    if Read(START, ts, lineCount) == Parsed(forest, None) {
      ReadIsSound(START, ts, lineCount);
      assert SpelledBy(START) + Marks(ts) == Marks(ts);
    }
    if AllLists(forest) && FlatAll(forest) == Marks(ts) {
      ReadForms(START, forest, ts, [], lineCount);
      assert ts + [] == ts && [] + forest == forest;
    }
  }

  /** What Lex produces never puts a list into a word token. */
  lemma {:induction false} LexHasAtomsOnly(s: string, numeral: Numeral)
    ensures forall t :: t in Lex(s, numeral) ==> t.Word? ==> !t.value.List?
    decreases |s|
  {
    if s != [] {
      LexHasAtomsOnly(LexOne(s, numeral).1, numeral);
    }
  }

  lemma {:induction false} LinesHaveAtomsOnly(lines: seq<string>, k: nat, numeral: Numeral)
    ensures AtomsOnly(LexLines(lines, k, numeral))
    decreases |lines| - k
  {
    if k < |lines| {
      var tokens := Lex(lines[k], numeral);
      LexHasAtomsOnly(lines[k], numeral);
      LinesHaveAtomsOnly(lines, k + 1, numeral);
      var ls := LexLines(lines, k, numeral);
      forall i | 0 <= i < |ls|
        ensures ls[i].token.Word? ==> !ls[i].token.value.List?
      {
        assert i < |tokens| ==> ls[i].token == tokens[i] && tokens[i] in tokens;
        assert i >= |tokens| ==> ls[i] == LexLines(lines, k + 1, numeral)[i - |tokens|];
      }
    }
  }

  // ---------- where the reader stops ----------

  /** How many parentheses are open after these marks. */
  function Depth(ms: seq<Mark>): int {
    if ms == [] then 0 else
    Depth(ms[..|ms| - 1]) + match ms[|ms| - 1] case OpenMark => 1 case CloseMark => -1 case _ => 0
  }

  /** Nothing is wrong up to the mark `k` that a reader without lookahead could know of. */
  predicate FineAt(ms: seq<Mark>, k: nat)
    requires k < |ms|
  {
    match ms[k]
    case OpenMark => true
    case CloseMark => Depth(ms[..k]) > 0
    case Leaf(_) => Depth(ms[..k]) > 0
    case BadMark => false
  }

  ghost predicate Fine(ms: seq<Mark>, k: nat) {
    forall i :: 0 <= i < k && i < |ms| ==> FineAt(ms, i)
  }

  /** The error for a first fault at mark `k`. */
  function ErrorAt(ts: seq<Located>, k: nat): ReadError
    requires k < |ts|
  {
    var line := ts[k].line;
    match ts[k].token
    case Close => CloseWithoutOpen(line)
    case Word(_) => IdentifierOutside(line)
    case Quoted(_) => StringOutside(line)
    case _ => if Depth(Marks(ts[..k])) == 0 then StringOutside(line) else UnclosedString(line)
  }

  predicate IsParenthesisError(e: ReadError) {
    e.CloseWithoutOpen? || e.UnclosedParentheses?
  }

  lemma DepthSnoc(ms: seq<Mark>, mark: Mark)
    ensures Depth(ms + [mark]) == Depth(ms) + match mark case OpenMark => 1 case CloseMark => -1 case _ => 0
  {
    assert (ms + [mark])[..|ms|] == ms;
  }

  /** The lines of the parentheses that are still open, the innermost last. */
  function OpenLines(ts: seq<Located>): seq<nat> {
    if ts == [] then [] else
    var before, last := OpenLines(ts[..|ts| - 1]), ts[|ts| - 1];
    if last.token.Open? then before + [last.line]
    else if last.token.Close? && before != [] then before[..|before| - 1] else before
  }

  /** How reading `all` ends, with a first fault not before `from`. */
  ghost predicate EndsAs(all: seq<Located>, from: nat, lineCount: nat, error: Option<ReadError>) {
    match error
    case None => Fine(Marks(all), |all|) && Depth(Marks(all)) == 0
    case Some(UnclosedParentheses(line, openLines)) =>
      && Fine(Marks(all), |all|) && Depth(Marks(all)) == |openLines| > 0
      && line == lineCount && openLines == OpenLines(all)
    case Some(e) => exists k :: from <= k < |all| && FaultIs(all, k, e)
  }

  ghost predicate FaultIs(all: seq<Located>, k: nat, e: ReadError)
    requires k < |all|
  {
    Fine(Marks(all), k) && !FineAt(Marks(all), k) && e == ErrorAt(all, k)
  }

  /** `done` has been read; the reader goes on with `ts`. */
  lemma {:induction false} ReadStopsAt(m: Machine, done: seq<Located>, ts: seq<Located>, lineCount: nat)
    requires |m.stack| == |m.openlines| && Depth(Marks(done)) == |m.stack| && Fine(Marks(done), |done|)
    requires m.openlines == OpenLines(done)
    ensures EndsAs(done + ts, |done|, lineCount, Read(m, ts, lineCount).error)
    decreases |ts|
  {
    var all := done + ts;
    if ts == [] {
      assert all == done;
    } else {
      var fed, more := Feed(m, ts[0]), done + [ts[0]];
      ReadsOne(m, done, ts);
      OpensOne(m, done, ts[0]);
      if fed.Err? {
        assert FaultIs(all, |done|, fed.error);
      } else {
        assert more + ts[1..] == all;
        ReadStopsAt(fed.value, more, ts[1..], lineCount);
      }
    }
  }

  lemma OpensOne(m: Machine, done: seq<Located>, t: Located)
    requires |m.stack| == |m.openlines| && m.openlines == OpenLines(done)
    ensures Feed(m, t).Ok? ==> Feed(m, t).value.openlines == OpenLines(done + [t])
  {
    assert (done + [t])[..|done|] == done;
  }

  /** The next token is fed: it is the first fault, or the marks stay fine. */
  lemma ReadsOne(m: Machine, done: seq<Located>, ts: seq<Located>)
    requires ts != [] && |m.stack| == |m.openlines| && Depth(Marks(done)) == |m.stack| && Fine(Marks(done), |done|)
    ensures var fed, more := Feed(m, ts[0]), done + [ts[0]];
            if fed.Err? then FaultIs(done + ts, |done|, fed.error)
            else Depth(Marks(more)) == |fed.value.stack| && Fine(Marks(more), |more|)
  {
    var all, more, k := done + ts, done + [ts[0]], |done|;
    MarksSlice(all, k);
    assert all[..k] == done && all[k] == ts[0];
    FaultShows(m, all, k);
    if Feed(m, ts[0]).Err? {
      FinePrefix(done, ts);
    } else {
      assert Marks(more) == Marks(done) + [MarkOf(ts[0].token)];
      DepthSnoc(Marks(done), MarkOf(ts[0].token));
      FinePrefix(done, [ts[0]]);
      assert more + ts[1..] == all;
      FineAtPrefix(more, ts[1..], k);
    }
  }

  lemma FineAtPrefix(done: seq<Located>, ts: seq<Located>, i: nat)
    requires i < |done|
    ensures FineAt(Marks(done + ts), i) <==> FineAt(Marks(done), i)
  {
    assert Marks(done + ts)[..i] == Marks(done)[..i];
  }

  lemma FinePrefix(done: seq<Located>, ts: seq<Located>)
    requires Fine(Marks(done), |done|)
    ensures Fine(Marks(done + ts), |done|)
  {
    forall i | 0 <= i < |done|
      ensures FineAt(Marks(done + ts), i)
    {
      FineAtPrefix(done, ts, i);
      assert FineAt(Marks(done), i);
    }
  }

  lemma FaultShows(m: Machine, all: seq<Located>, k: nat)
    requires |m.stack| == |m.openlines| && k < |all| && Depth(Marks(all[..k])) == |m.stack|
    ensures Feed(m, all[k]).Ok? <==> FineAt(Marks(all), k)
    ensures Feed(m, all[k]).Err? ==> Feed(m, all[k]).error == ErrorAt(all, k)
    ensures var fed, change := Feed(m, all[k]), match all[k].token case Open => 1 case Close => -1 case _ => 0;
            fed.Ok? ==> |fed.value.stack| == |m.stack| + change
  {
    MarksSlice(all, k);
  }

  /** The first fault is a parenthesis closed where none is open. */
  ghost predicate ClosesTooMuch(ms: seq<Mark>) {
    exists k :: FirstCloses(ms, k)
  }

  ghost predicate FirstCloses(ms: seq<Mark>, k: int) {
    0 <= k < |ms| && Fine(ms, k) && ms[k].CloseMark? && Depth(ms[..k]) <= 0
  }

  /** On every input: no error exactly when nothing is outside a list, no string is left open and the
      parentheses match; a parenthesis error exactly when the first fault is one of nesting. */
  lemma ErrorsAreFaults(ts: seq<Located>, lineCount: nat)
    ensures var ms, error := Marks(ts), Read(START, ts, lineCount).error;
            && (error.None? <==> Fine(ms, |ms|) && Depth(ms) == 0)
            && (error.Some? && IsParenthesisError(error.value) <==>
                (Fine(ms, |ms|) && Depth(ms) > 0) || ClosesTooMuch(ms))
  {
    FirstFaultIsReported(ts, lineCount);
    var ms, error := Marks(ts), Read(START, ts, lineCount).error;
    if error.None? || error.value.UnclosedParentheses? {
      FineClosesNothing(ms);
    } else {
      FaultDecides(ts, error.value);
    }
  }

  lemma FineClosesNothing(ms: seq<Mark>)
    requires Fine(ms, |ms|)
    ensures !ClosesTooMuch(ms)
  {
    if k :| FirstCloses(ms, k) {
      assert FineAt(ms, k);
    }
  }

  /** At a first fault the error is one of nesting exactly when the mark there closes too much. */
  lemma FaultDecides(ts: seq<Located>, e: ReadError)
    requires exists k :: 0 <= k < |ts| && FaultIs(ts, k, e)
    ensures !Fine(Marks(ts), |ts|) && (IsParenthesisError(e) <==> ClosesTooMuch(Marks(ts)))
  {
    var ms := Marks(ts);
    var k :| 0 <= k < |ts| && FaultIs(ts, k, e);
    assert IsParenthesisError(e) <==> FirstCloses(ms, k);
    if j :| FirstCloses(ms, j) {
      assert !FineAt(ms, j);
      FirstFaultIsUnique(ms, k);
    }
  }

  lemma FirstFaultIsUnique(ms: seq<Mark>, k: nat)
    requires k < |ms| && Fine(ms, k) && !FineAt(ms, k)
    ensures forall j :: 0 <= j < |ms| && Fine(ms, j) && !FineAt(ms, j) ==> j == k
  {
  }

  /** The error, on every input: that of the first fault, in its line, or the lines that were left open. */
  lemma FirstFaultIsReported(ts: seq<Located>, lineCount: nat)
    ensures EndsAs(ts, 0, lineCount, Read(START, ts, lineCount).error)
  {
    assert Depth(Marks([])) == 0;
    ReadStopsAt(START, [], ts, lineCount);
    assert [] + ts == ts;
  }
}
