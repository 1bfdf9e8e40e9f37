/**
 The end of every execution of a generated reverse wrapper: the call, the checks on its outcome, the
 conversion of the return value and the final cleanup.
 */
module WrapperVerdict {
  import opened Wrappers
  import opened WrapperCode
  import opened ReverseWrapper
  import opened WrapperSafety

  function CallCleanup(cs: seq<Action>): seq<Action> {
    [Xdecref(PY_RETVAL)] + ([Decref(PY_METHOD)] + cs)
  }

  function CallCode(g: Gen, ret: ReturnType): seq<Instr> {
    [GetAttr(PY_METHOD, PY_SELF)] + ([Check(IsNull(PY_METHOD), g.cleanup, ErrorReturn(ret))] + CallAndChecks(g, ret))
  }

  lemma CallMethodWrites(g: Gen, ret: ReturnType)
    ensures CallMethod(g, ret).body == g.body + CallCode(g, ret)
    ensures CallMethod(g, ret).cleanup == CallCleanup(g.cleanup)
    ensures CallMethod(g, ret).parse == g.parse && CallMethod(g, ret).post == g.post
  {
  }

  /** After a call that returned an object. */
  ghost predicate Called(cs: seq<Action>, st: State, items: seq<string>) {
    && Settled(cs, st) && !NullDecref(cs, st)
    && Holds(st, PY_RETVAL, Owned) && Xdecref(PY_RETVAL) in cs
    && st.called == Some(items)
  }

  lemma Exits(cs: seq<Action>, st: State, ret: ReturnType, guard: Guard, o: Oracle)
    requires Settled(cs, st) && !NullDecref(cs, st) && !st.retval && Taken(guard, st, o)
    ensures var out := Exec(Check(guard, cs, ErrorReturn(ret)), st, o);
            EndsEarly(out, ret) && out.st.called == st.called
  {
    Discharge(cs, st);
  }

  lemma GotMethod(cs: seq<Action>, st: State, hasTuple: bool, hasNull: bool, items: seq<string>)
    requires Passed(cs, st, hasTuple, hasNull, items)
    ensures var next := Put(st, PY_METHOD, Owned);
            && Settled([Decref(PY_METHOD)] + cs, next) && !NullDecref([Decref(PY_METHOD)] + cs, next)
            && Holds(next, PY_METHOD, Owned) && PY_RETVAL !in next.vars
  {
    SettledAfterAcquire(cs, st, Decref(PY_METHOD), Owned);
  }

  lemma NoMethod(cs: seq<Action>, st: State, hasTuple: bool, hasNull: bool, items: seq<string>)
    requires Passed(cs, st, hasTuple, hasNull, items)
    ensures Settled(cs, Put(st, PY_METHOD, Null)) && !NullDecref(cs, Put(st, PY_METHOD, Null))
  {
    var next := Put(st, PY_METHOD, Null);
    assert !Holds(st, PY_METHOD, Owned) && !Holds(st, PY_METHOD, Null);
    assert forall w, s :: w != PY_METHOD ==> (Holds(next, w, s) <==> Holds(st, w, s));
  }

  ghost predicate CallEnds(out: Outcome, ret: ReturnType, cs: seq<Action>, hasNull: bool, raised: bool,
                           items: seq<string>, o: Oracle)
  {
    if !o(New(PY_METHOD)) then EndsEarly(out, ret) && out.st.called == None
    else if hasNull || raised then out == Fault || Leaks(out)
    else if !o(New(PY_RETVAL)) then EndsEarly(out, ret) && out.st.called == Some(items)
    else out.Running? && Called(CallCleanup(cs), out.st, items) && !out.st.retval
  }

  lemma CallPhase(g: Gen, ret: ReturnType, st: State, hasNull: bool, raised: bool, items: seq<string>, o: Oracle)
    requires Passed(g.cleanup, st, HasTuple(g), hasNull, items) && ChecksBehave(g.checks, raised, o)
    ensures CallEnds(Run(CallCode(g, ret), st, o), ret, g.cleanup, hasNull, raised, items, o)
  {
    var get, miss := GetAttr(PY_METHOD, PY_SELF), Check(IsNull(PY_METHOD), g.cleanup, ErrorReturn(ret));
    var bound := Put(st, PY_METHOD, if o(New(PY_METHOD)) then Owned else Null);
    assert !Holds(st, PY_METHOD, Owned);
    RunTwo(get, miss, CallAndChecks(g, ret), st, bound, o);
    if o(New(PY_METHOD)) {
      GotMethod(g.cleanup, st, HasTuple(g), hasNull, items);
      MakeCall(g, ret, st, bound, hasNull, raised, items, o);
    } else {
      NoMethod(g.cleanup, st, HasTuple(g), hasNull, items);
      Exits(g.cleanup, bound, ret, IsNull(PY_METHOD), o);
    }
  }

  function CallAndChecks(g: Gen, ret: ReturnType): seq<Instr> {
    var args := if HasTuple(g) then Some(PY_ARGS) else None;
    [Call(PY_RETVAL, PY_METHOD, args)] +
    (g.checks + [Check(IsNull(PY_RETVAL), CallCleanup(g.cleanup), ErrorReturn(ret))])
  }

  lemma MakeCall(g: Gen, ret: ReturnType, st: State, bound: State, hasNull: bool, raised: bool, items: seq<string>,
                 o: Oracle)
    requires Passed(g.cleanup, st, HasTuple(g), hasNull, items) && ChecksBehave(g.checks, raised, o)
    requires bound == Put(st, PY_METHOD, Owned) && o(New(PY_METHOD))
    requires var cs := [Decref(PY_METHOD)] + g.cleanup; Settled(cs, bound) && !NullDecref(cs, bound)
    ensures CallEnds(Run(CallAndChecks(g, ret), bound, o), ret, g.cleanup, hasNull, raised, items, o)
  {
    var call := CallAndChecks(g, ret)[0];
    RunAppend([call], CallAndChecks(g, ret)[1..], bound, o);
    assert CallAndChecks(g, ret) == [call] + CallAndChecks(g, ret)[1..];
    RunOne(call, bound, o);
    if !hasNull {
      var done := Put(bound.(called := Some(items)), PY_RETVAL, if o(New(PY_RETVAL)) then Owned else Null);
      assert Exec(call, bound, o) == Running(done);
      AfterCall(g, ret, bound, done, raised, items, o);
    }
  }

  lemma AfterCall(g: Gen, ret: ReturnType, bound: State, done: State, raised: bool, items: seq<string>, o: Oracle)
    requires ChecksBehave(g.checks, raised, o)
    requires var cs := [Decref(PY_METHOD)] + g.cleanup; Settled(cs, bound) && !NullDecref(cs, bound)
    requires Holds(bound, PY_METHOD, Owned) && PY_RETVAL !in bound.vars && !bound.retval
    requires done == Put(bound.(called := Some(items)), PY_RETVAL, if o(New(PY_RETVAL)) then Owned else Null)
    ensures var out := Run(g.checks + [Check(IsNull(PY_RETVAL), CallCleanup(g.cleanup), ErrorReturn(ret))], done, o);
            if raised then out == Fault || Leaks(out)
            else if !o(New(PY_RETVAL)) then EndsEarly(out, ret) && out.st.called == Some(items)
            else out == Running(done) && Called(CallCleanup(g.cleanup), done, items)
  {
    var cs := CallCleanup(g.cleanup);
    var check := Check(IsNull(PY_RETVAL), cs, ErrorReturn(ret));
    RunAppend(g.checks, [check], done, o);
    RunOne(check, done, o);
    var mid := bound.(called := Some(items));
    assert forall w, s :: Holds(mid, w, s) <==> Holds(bound, w, s);
    SettledAfterAcquire([Decref(PY_METHOD)] + g.cleanup, mid, Xdecref(PY_RETVAL),
                        if o(New(PY_RETVAL)) then Owned else Null);
    assert cs[0] == Xdecref(PY_RETVAL);
    if !o(New(PY_RETVAL)) {
      Exits(cs, done, ret, IsNull(PY_RETVAL), o);
    }
  }

  // ---------- the return value ----------

  /** The statements between the call and the final cleanup. */
  function ReturnCode(ret: ReturnType, outputs: nat, cs: seq<Action>): seq<Instr> {
    var failType := Check(Fails(TypeTest), cs, ErrorReturn(ret));
    var failParse := Check(Fails(Parse), cs, ErrorReturn(ret));
    var pack := if outputs == 0 then [PackInTuple(PY_RETVAL)] else [];
    if ret.VoidReturn? then (if outputs == 0 then [failType] else [Read(PY_RETVAL), failParse])
    else if ret.IntReturn? || ret.DoubleReturn? then pack + ([Read(PY_RETVAL), failParse] + [StoreRetval])
    else if ret.StringReturn? || ret.BooleanReturn? then
      pack + ([Read(PY_RETVAL), failParse] + [Read(PY_RETVAL), StoreRetval])
    else [Read(PY_RETVAL), failType] + [Read(PY_RETVAL), StoreRetval]
  }

  ghost predicate WritesReturn(g: Gen, ret: ReturnType) {
    var done := ParseReturn(WriteConversion(g, ret), ret);
    && done.body + done.post == g.body + ReturnCode(ret, |g.parse|, g.cleanup)
    && done.cleanup == g.cleanup
  }

  lemma ReturnWrites(g: Gen, ret: ReturnType)
    requires g.post == [] && Cooperates(g, WriteConversion(g, ret), ret)
    ensures WritesReturn(g, ret)
  {
    if ret.VoidReturn? {
      assert |PrependParse(g, "", "").parse| == |g.parse| + 1;
    } else if ret.StringReturn? || ret.IntReturn? || ret.DoubleReturn? || ret.BooleanReturn? {
      ParsedReturnWrites(g, ret);
    } else {
      CheckedReturnWrites(g, ret);
    }
  }

  lemma ParsedReturnWrites(g: Gen, ret: ReturnType)
    requires g.post == [] && (ret.StringReturn? || ret.IntReturn? || ret.DoubleReturn? || ret.BooleanReturn?)
    ensures WritesReturn(g, ret)
  {
    var converted := WriteConversion(g, ret);
    var parse := [Read(PY_RETVAL), Check(Fails(Parse), g.cleanup, ErrorReturn(ret))];
    var post := if ret.IntReturn? || ret.DoubleReturn? then [] else [Read(PY_RETVAL), StoreRetval];
    assert converted == g.(parse := converted.parse, post := post) && |converted.parse| == |g.parse| + 1;
    assert converted.parse[0].format != "";
    var packed := if |g.parse| == 0 then g.body + [PackInTuple(PY_RETVAL)] else g.body;
    ParsedBody(converted, ret, packed);
    var pack := if |g.parse| == 0 then [PackInTuple(PY_RETVAL)] else [];
    var store := if ret.IntReturn? || ret.DoubleReturn? then [StoreRetval] else [Read(PY_RETVAL), StoreRetval];
    Regroup(g.body, pack, parse, store);
    assert g.body + pack == packed;
  }

  lemma Regroup(a: seq<Instr>, b: seq<Instr>, c: seq<Instr>, d: seq<Instr>)
    ensures a + b + c + d == a + (b + (c + d))
    ensures a + [] == a
  {
  }

  lemma ParsedBody(g: Gen, ret: ReturnType, packed: seq<Instr>)
    requires |g.parse| > 0 && g.parse[0].format != ""
    requires packed == if |g.parse| == 1 then g.body + [PackInTuple(PY_RETVAL)] else g.body
    ensures var done := ParseReturn(g, ret);
            var parse := [Read(PY_RETVAL), Check(Fails(Parse), g.cleanup, ErrorReturn(ret))];
            && done.body == (if ret.IntReturn? || ret.DoubleReturn? then packed + parse + [StoreRetval]
                             else packed + parse)
            && done.post == g.post && done.cleanup == g.cleanup
  {
  }

  lemma CheckedReturnWrites(g: Gen, ret: ReturnType)
    requires g.post == [] && g.parse == []
    requires !(ret.VoidReturn? || ret.StringReturn? || ret.IntReturn? || ret.DoubleReturn? || ret.BooleanReturn?)
    ensures WritesReturn(g, ret)
  {
    var converted := WriteConversion(g, ret);
    var test := [Read(PY_RETVAL), Check(Fails(TypeTest), g.cleanup, ErrorReturn(ret))];
    assert converted == ConvertChecked(g, ret);
    assert converted.body == g.body + test + [Read(PY_RETVAL), StoreRetval];
  }

  lemma {:induction false} PerformAll(cs: seq<Action>, st: State, o: Oracle)
    ensures Run(Performs(cs), st, o) == ActAll(cs, st)
  {
    if cs == [] {
      assert Performs(cs) == [];
    } else {
      assert Performs(cs) == [Perform(cs[0])] + Performs(cs[1..]);
      RunAppend([Perform(cs[0])], Performs(cs[1..]), st, o);
      RunOne(Perform(cs[0]), st, o);
      var first := Act(cs[0], st);
      if first.Running? {
        PerformAll(cs[1..], first.st, o);
      }
    }
  }

  function ResultOf(ret: ReturnType): Value {
    if ret.VoidReturn? then Nothing else Converted
  }

  ghost predicate EndsWell(out: Outcome, ret: ReturnType, items: seq<string>) {
    Clean(out) && out.value == ResultOf(ret) && out.st.called == Some(items)
  }

  lemma FinalCleanup(cs: seq<Action>, st: State, ret: ReturnType, items: seq<string>, o: Oracle)
    requires Called(cs, st, items) && (!ret.VoidReturn? ==> st.retval)
    ensures EndsWell(Run(Performs(cs) + [Return(ret != VoidReturn)], st, o), ret, items)
  {
    var last := Return(ret != VoidReturn);
    RunAppend(Performs(cs), [last], st, o);
    PerformAll(cs, st, o);
    Discharge(cs, st);
    LastReturn(ActAll(cs, st).st, ret, items, o);
  }

  lemma LastReturn(st: State, ret: ReturnType, items: seq<string>, o: Oracle)
    requires !st.gil && (!ret.VoidReturn? ==> st.retval) && st.called == Some(items)
    requires forall v :: !Holds(st, v, Owned)
    ensures EndsWell(Run([Return(ret != VoidReturn)], st, o), ret, items)
  {
    RunOne(Return(ret != VoidReturn), st, o);
  }

  /** Read py_retval, leave when the test on it fails. */
  lemma ReadAndTest(cs: seq<Action>, st: State, ret: ReturnType, site: Site, items: seq<string>, o: Oracle)
    requires Called(cs, st, items) && !st.retval
    ensures var out := Run([Read(PY_RETVAL), Check(Fails(site), cs, ErrorReturn(ret))], st, o);
            if o(site) then out == Running(st) else EndsEarly(out, ret) && out.st.called == Some(items)
  {
    var check := Check(Fails(site), cs, ErrorReturn(ret));
    RunAppend([Read(PY_RETVAL)], [check], st, o);
    RunOne(Read(PY_RETVAL), st, o);
    RunOne(check, st, o);
    if !o(site) {
      Exits(cs, st, ret, Fails(site), o);
    }
    assert [Read(PY_RETVAL), check] == [Read(PY_RETVAL)] + [check];
  }

  lemma Store(cs: seq<Action>, st: State, items: seq<string>, o: Oracle)
    requires Called(cs, st, items)
    ensures Run([StoreRetval], st, o) == Running(st.(retval := true))
    ensures Run([Read(PY_RETVAL), StoreRetval], st, o) == Running(st.(retval := true))
    ensures Called(cs, st.(retval := true), items)
  {
    RunOne(StoreRetval, st, o);
    RunOne(Read(PY_RETVAL), st, o);
    RunAppend([Read(PY_RETVAL)], [StoreRetval], st, o);
    assert [Read(PY_RETVAL), StoreRetval] == [Read(PY_RETVAL)] + [StoreRetval];
    assert forall w, s :: Holds(st.(retval := true), w, s) <==> Holds(st, w, s);
  }

  ghost predicate ReturnEnds(out: Outcome, ret: ReturnType, outputs: nat, cs: seq<Action>, items: seq<string>,
                             o: Oracle)
  {
    match ReturnVerdict(ret, outputs, o)
    case Completes => out.Running? && Called(cs, out.st, items) && (!ret.VoidReturn? ==> out.st.retval)
    case EarlyExit => EndsEarly(out, ret) && out.st.called == Some(items)
    case Misuse => out == Fault
  }

  lemma ReturnPhase(ret: ReturnType, outputs: nat, cs: seq<Action>, st: State, items: seq<string>, o: Oracle)
    requires Called(cs, st, items) && !st.retval
    ensures ReturnEnds(Run(ReturnCode(ret, outputs, cs), st, o), ret, outputs, cs, items, o)
  {
    if ret.VoidReturn? {
      VoidPhase(ret, outputs, cs, st, items, o);
    } else if ret.StringReturn? || ret.IntReturn? || ret.DoubleReturn? || ret.BooleanReturn? {
      ParsedPhase(ret, outputs, cs, st, items, o);
    } else {
      Store(cs, st, items, o);
      ReadAndTest(cs, st, ret, TypeTest, items, o);
      var failType := Check(Fails(TypeTest), cs, ErrorReturn(ret));
      RunAppend([Read(PY_RETVAL), failType], [Read(PY_RETVAL), StoreRetval], st, o);
    }
  }

  lemma VoidPhase(ret: ReturnType, outputs: nat, cs: seq<Action>, st: State, items: seq<string>, o: Oracle)
    requires Called(cs, st, items) && !st.retval && ret.VoidReturn?
    ensures ReturnEnds(Run(ReturnCode(ret, outputs, cs), st, o), ret, outputs, cs, items, o)
  {
    if outputs == 0 {
      RunOne(Check(Fails(TypeTest), cs, ErrorReturn(ret)), st, o);
      if !o(TypeTest) {
        Exits(cs, st, ret, Fails(TypeTest), o);
      }
    } else {
      ReadAndTest(cs, st, ret, Parse, items, o);
    }
  }

  lemma ParsedPhase(ret: ReturnType, outputs: nat, cs: seq<Action>, st: State, items: seq<string>, o: Oracle)
    requires Called(cs, st, items) && !st.retval
    requires ret.StringReturn? || ret.IntReturn? || ret.DoubleReturn? || ret.BooleanReturn?
    ensures ReturnEnds(Run(ReturnCode(ret, outputs, cs), st, o), ret, outputs, cs, items, o)
  {
    Store(cs, st, items, o);
    ReadAndTest(cs, st, ret, Parse, items, o);
    var store := if ret.IntReturn? || ret.DoubleReturn? then [StoreRetval] else [Read(PY_RETVAL), StoreRetval];
    var parse := [Read(PY_RETVAL), Check(Fails(Parse), cs, ErrorReturn(ret))];
    RunAppend(parse, store, st, o);
    if outputs == 0 {
      PackedReturn(cs, st, parse, store, items, o);
    } else {
      assert [] + (parse + store) == parse + store;
    }
  }

  lemma PackedReturn(cs: seq<Action>, st: State, parse: seq<Instr>, store: seq<Instr>, items: seq<string>, o: Oracle)
    requires Called(cs, st, items) && |parse| > 0 && parse[0] == Read(PY_RETVAL)
    ensures var out := Run([PackInTuple(PY_RETVAL)] + (parse + store), st, o);
            if o(Repack) then out == Run(parse + store, st, o) else out == Fault
  {
    RunAppend([PackInTuple(PY_RETVAL)], parse + store, st, o);
    RunOne(PackInTuple(PY_RETVAL), st, o);
    assert st.vars[PY_RETVAL := Owned] == st.vars;
    assert (parse + store)[0] == Read(PY_RETVAL);
  }

  // ---------- which wrappers there are, and what they parse ----------

  /** The wrapper is refused exactly when output parameters meet a return type that is converted from
      the result as a whole. */
  lemma RefusedExactlyWhen(ret: ReturnType, ps: seq<Parameter>)
    ensures Program(ret, ps).None? <==>
            (exists p :: p in ps && IsOutput(p)) &&
            (ret.GObjectReturn? || ret.GEnumReturn? || ret.GFlagsReturn? || ret.GtkTreePathReturn? || ret.GBoxedReturn?
             || ret.GBoxedReturnWithDefault?)
  {
    Shape(ret, ps);
    SomeOutput(ps);
    CallMethodWrites(PassArguments(ConvertAll(ret, ps), ret), ret);
  }

  lemma {:induction false} SomeOutput(ps: seq<Parameter>)
    ensures Outputs(ps) > 0 <==> exists p :: p in ps && IsOutput(p)
  {
    if ps != [] {
      SomeOutput(ps[..|ps| - 1]);
      assert forall p :: p in ps <==> p in ps[..|ps| - 1] || p == ps[|ps| - 1];
    }
  }

  /** The values that the output parameters take from the result, in their order. */
  function OutputItems(ps: seq<Parameter>): seq<ParseItem> {
    if ps == [] then [] else
    OutputItems(ps[..|ps| - 1]) +
    match ps[|ps| - 1]
    case IntPtrParam(name, _) => [ParseItem("i", name)]
    case DoublePtrParam(name) => [ParseItem("d", name)]
    case _ => []
  }

  /** What is parsed out of the result: the return value first, in the format of its C type, then the
      outputs. */
  lemma ParsedValues(ret: ReturnType, ps: seq<Parameter>)
    ensures WriteConversion(CallMethod(PassArguments(ConvertAll(ret, ps), ret), ret), ret).parse ==
            (match ret
             case VoidReturn => [ParseItem("", "")]
             case StringReturn => [ParseItem("s", "&retval")]
             case IntReturn => [ParseItem("i", "&retval")]
             case DoubleReturn => [ParseItem("d", "&retval")]
             case BooleanReturn => [ParseItem("O", "&py_main_retval")]
             case _ => []) + OutputItems(ps)
  {
    OutputsAreParsed(ret, ps);
    CallMethodWrites(PassArguments(ConvertAll(ret, ps), ret), ret);
    assert [] + OutputItems(ps) == OutputItems(ps);
  }

  lemma {:induction false} OutputsAreParsed(ret: ReturnType, ps: seq<Parameter>)
    ensures ConvertAll(ret, ps).parse == OutputItems(ps)
  {
    if ps != [] {
      var p := ps[|ps| - 1];
      OutputsAreParsed(ret, ps[..|ps| - 1]);
      ConvertKinds(ConvertAll(ret, ps[..|ps| - 1]), ret, p);
      assert OutputItems(ps[..|ps| - 1]) + [] == OutputItems(ps[..|ps| - 1]);
    }
  }

  // ---------- the theorem ----------

  /** What an execution with this verdict looks like at its end. */
  ghost predicate Bears(out: Outcome, verdict: Verdict, ret: ReturnType, ps: seq<Parameter>, o: Oracle) {
    && (out.Returned? && Clean(out) ==> out.st.called == None || out.st.called == Some(CallArgs(ps, o)))
    && match verdict
       case Completes => EndsWell(out, ret, CallArgs(ps, o))
       case EarlyExit => EndsEarly(out, ret)
       case Misuse => out == Fault || Leaks(out)
  }

  lemma ProgramParts(ret: ReturnType, ps: seq<Parameter>)
    requires Program(ret, ps).Some?
    ensures var g3 := PassArguments(ConvertAll(ret, ps), ret);
            var cs := CallCleanup(g3.cleanup);
            Program(ret, ps).value ==
              CallMethod(g3, ret).body + ReturnCode(ret, Outputs(ps), cs) + Performs(cs) + [Return(ret != VoidReturn)]
  {
    Shape(ret, ps);
    var g3 := PassArguments(ConvertAll(ret, ps), ret);
    CallMethodWrites(g3, ret);
    ReturnWrites(CallMethod(g3, ret), ret);
  }

  lemma CalledText(g: Gen, ret: ReturnType, conversion: seq<Instr>, performs: seq<Instr>, last: seq<Instr>)
    ensures var g3 := PassArguments(g, ret);
            && g.body <= g3.body && g3.checks == g.checks && (HasTuple(g3) <==> HasTuple(g))
            && CallMethod(g3, ret).body + conversion + performs + last ==
                 g.body + (Added(g, g3) + (CallCode(g3, ret) + (conversion + (performs + last))))
  {
    var g3 := PassArguments(g, ret);
    CallMethodWrites(g3, ret);
    assert g3.body == g.body + Added(g, g3);
    Nest(g.body, Added(g, g3), CallCode(g3, ret), conversion, performs, last);
  }

  lemma ProgramText(ret: ReturnType, ps: seq<Parameter>)
    requires Program(ret, ps).Some?
    ensures var g, g3 := ConvertAll(ret, ps), PassArguments(ConvertAll(ret, ps), ret);
            var cs := CallCleanup(g3.cleanup);
            && g.body <= g3.body && g3.checks == g.checks && (HasTuple(g3) <==> HasTuple(g))
            && Program(ret, ps).value == g.body + (Added(g, g3) + (CallCode(g3, ret) +
                 (ReturnCode(ret, Outputs(ps), cs) + (Performs(cs) + [Return(ret != VoidReturn)]))))
  {
    var g := ConvertAll(ret, ps);
    var cs := CallCleanup(PassArguments(g, ret).cleanup);
    ProgramParts(ret, ps);
    CalledText(g, ret, ReturnCode(ret, Outputs(ps), cs), Performs(cs), [Return(ret != VoidReturn)]);
  }

  lemma Nest(a: seq<Instr>, b: seq<Instr>, c: seq<Instr>, d: seq<Instr>, e: seq<Instr>, f: seq<Instr>)
    ensures a + b + c + d + e + f == a + (b + (c + (d + (e + f))))
  {
  }

  /** From the call on. */
  lemma VerdictFromCall(ret: ReturnType, ps: seq<Parameter>, o: Oracle, g: Gen, st: State)
    requires ConversionVerdict(ps, o).Completes? && !TupleFaults(ps, o)
    requires Passed(g.cleanup, st, HasTuple(g), NullArgument(ps, o), CallArgs(ps, o))
    requires ChecksBehave(g.checks, GErrorRaised(ps, o), o)
    ensures var cs := CallCleanup(g.cleanup);
            var tail := Performs(cs) + [Return(ret != VoidReturn)];
            var text := CallCode(g, ret) + (ReturnCode(ret, Outputs(ps), cs) + tail);
            Bears(Run(text, st, o), Predict(ret, ps, o), ret, ps, o)
  {
    var cs := CallCleanup(g.cleanup);
    var conversion, final := ReturnCode(ret, Outputs(ps), cs), Performs(cs) + [Return(ret != VoidReturn)];
    RunAppend(CallCode(g, ret), conversion + final, st, o);
    CallPhase(g, ret, st, NullArgument(ps, o), GErrorRaised(ps, o), CallArgs(ps, o), o);
    var called := Run(CallCode(g, ret), st, o);
    if called.Running? {
      RunAppend(conversion, final, called.st, o);
      ReturnPhase(ret, Outputs(ps), cs, called.st, CallArgs(ps, o), o);
      var converted := Run(conversion, called.st, o);
      if converted.Running? {
        FinalCleanup(cs, converted.st, ret, CallArgs(ps, o), o);
      }
    }
  }

  /** Every execution of every generated wrapper ends as predicted: each reference it acquired is
      released or moved exactly once, unless the prediction is Misuse. */
  lemma WrapperVerdict(ret: ReturnType, ps: seq<Parameter>, o: Oracle)
    requires DistinctNames(ps) && Program(ret, ps).Some?
    ensures Bears(Run(Program(ret, ps).value, START, o), Predict(ret, ps, o), ret, ps, o)
  {
    var g := ConvertAll(ret, ps);
    var g3 := PassArguments(g, ret);
    var cs := CallCleanup(g3.cleanup);
    var rest := CallCode(g3, ret) + (ReturnCode(ret, Outputs(ps), cs) + (Performs(cs) + [Return(ret != VoidReturn)]));
    ProgramText(ret, ps);
    RunAppend(g.body, Added(g, g3) + rest, START, o);
    ConversionPhase(ret, ps, o);
    var converted := Run(g.body, START, o);
    if ConversionVerdict(ps, o).Completes? {
      RunAppend(Added(g, g3), rest, converted.st, o);
      TuplePhase(ret, ps, o, g, converted.st);
      if !TupleFaults(ps, o) {
        VerdictFromCall(ret, ps, o, g3, Run(Added(g, g3), converted.st, o).st);
      }
    }
  }

  /** The wrapper keeps the discipline exactly when no misuse is predicted. */
  lemma CleanExactlyWhen(ret: ReturnType, ps: seq<Parameter>, o: Oracle)
    requires DistinctNames(ps) && Program(ret, ps).Some?
    ensures Clean(Run(Program(ret, ps).value, START, o)) <==> !Predict(ret, ps, o).Misuse?
  {
    WrapperVerdict(ret, ps, o);
  }

  ghost predicate MemoryLasts(ps: seq<Parameter>, o: Oracle) {
    && !NullArgument(ps, o)
    && o(New(PY_ARGS)) && o(Repack)
  }

  /** The wrappers of Wrapper.write_virtuals, which passes no optional parameter: while memory lasts, every
      reference is released or moved exactly once on every path, unless a GError check behind the call
      fails. */
  lemma VirtualsAreCleanUnless(ret: ReturnType, ps: seq<Parameter>, o: Oracle)
    requires DistinctNames(ps) && Program(ret, ps).Some?
    requires MemoryLasts(ps, o) && forall p :: p in ps ==> !IsOptional(p)
    ensures Clean(Run(Program(ret, ps).value, START, o)) <==>
            !(ConversionVerdict(ps, o).Completes? && o(New(PY_METHOD)) && GErrorRaised(ps, o))
  {
    MisuseWhen(ret, ps, o);
    CleanExactlyWhen(ret, ps, o);
  }

  lemma MisuseWhen(ret: ReturnType, ps: seq<Parameter>, o: Oracle)
    requires MemoryLasts(ps, o) && forall p :: p in ps ==> !IsOptional(p)
    ensures Predict(ret, ps, o).Misuse? <==>
            ConversionVerdict(ps, o).Completes? && o(New(PY_METHOD)) && GErrorRaised(ps, o)
  {
    NoOptionals(ps);
    ConversionsAreClean(ps, o);
  }

  /** Without GError parameters they are clean always. */
  lemma VirtualsAreClean(ret: ReturnType, ps: seq<Parameter>, o: Oracle)
    requires DistinctNames(ps) && Program(ret, ps).Some?
    requires MemoryLasts(ps, o) && forall p :: p in ps ==> !p.GErrorParam? && !IsOptional(p)
    ensures Clean(Run(Program(ret, ps).value, START, o))
  {
    VirtualsAreCleanUnless(ret, ps, o);
  }

  lemma {:induction false} NoOptionals(ps: seq<Parameter>)
    requires forall p :: p in ps ==> !IsOptional(p)
    ensures OptionalArgs(ps) == []
  {
    if ps != [] {
      NoOptionals(ps[..|ps| - 1]);
    }
  }

  lemma {:induction false} ConversionsAreClean(ps: seq<Parameter>, o: Oracle)
    requires !NullArgument(ps, o)
    ensures !ConversionVerdict(ps, o).Misuse?
  {
    if ps != [] {
      var before := ps[..|ps| - 1];
      assert ps == before + [ps[|ps| - 1]];
      Extend(before, ps[|ps| - 1], o);
      ConversionsAreClean(before, o);
    }
  }

  /** When the Python method has raised an exception, the call has returned NULL and a GError check fails,
      the exit taken is a snapshot from before the argument tuple and the method were acquired: it
      returns with py_method still held, if it does not release what the tuple has stolen before. */
  lemma GErrorExitLeaks(ret: ReturnType, ps: seq<Parameter>, p: Parameter, o: Oracle)
    requires DistinctNames(ps) && Program(ret, ps).Some?
    requires p in ps && p.GErrorParam? && !o(GErrorTest(p.name)) && !o(New(PY_RETVAL))
    requires forall site: Site :: site != GErrorTest(p.name) && site != New(PY_RETVAL) ==> o(site)
    ensures var out := Run(Program(ret, ps).value, START, o);
            !Clean(out) && (out == Fault || (out.Returned? && Holds(out.st, PY_METHOD, Owned)))
  {
    WrapperVerdict(ret, ps, o);
    var i :| 0 <= i < |ps| && ps[i] == p;
    assert GErrorRaised(ps, o);
    RetvalIsNoParameter(ps);
    AllConverted(ps, o);
  }

  /** The exit does return: with the GError parameter alone there is no tuple that could fault. */
  lemma LoneGErrorExitLeaks(ret: ReturnType, p: Parameter, o: Oracle)
    requires DistinctNames([p]) && p.GErrorParam? && Program(ret, [p]).Some?
    requires !o(GErrorTest(p.name)) && !o(New(PY_RETVAL)) && o(New(PY_SELF)) && o(New(PY_METHOD))
    ensures var out := Run(Program(ret, [p]).value, START, o); out.Returned? && Holds(out.st, PY_METHOD, Owned)
  {
    var g := ConvertAll(ret, [p]);
    var check := Check(Fails(GErrorTest(p.name)), [Decref(PY_SELF)] + [ReleaseGil], ErrorReturn(ret));
    LoneGErrorWrites(ret, p, check);
    LoneGErrorConverts(ret, p, o);
    ProgramText(ret, [p]);
    var cs := CallCleanup(g.cleanup);
    var rest := ReturnCode(ret, Outputs([p]), cs) + (Performs(cs) + [Return(ret != VoidReturn)]);
    assert Added(g, g) == [] && [] + (CallCode(g, ret) + rest) == CallCode(g, ret) + rest;
    RunAppend(g.body, CallCode(g, ret) + rest, START, o);
    var st := Run(g.body, START, o).st;
    RunAppend(CallCode(g, ret), rest, st, o);
    LoneCallLeaks(g, ret, st, check, o);
  }

  lemma LoneGErrorWrites(ret: ReturnType, p: Parameter, check: Instr)
    requires p.GErrorParam?
    requires check == Check(Fails(GErrorTest(p.name)), [Decref(PY_SELF)] + [ReleaseGil], ErrorReturn(ret))
    ensures var g := ConvertAll(ret, [p]); g.checks == [check] && !HasTuple(g) && PassArguments(g, ret) == g
  {
    assert [p][..0] == [];
    assert [ReleaseGil] + [] == [ReleaseGil];
    assert [] + [check] == [check];
  }

  ghost predicate BeforeCall(st: State) {
    && st.gil && st.tuple == [] && Holds(st, PY_SELF, Owned)
    && !Holds(st, PY_METHOD, Owned) && !Holds(st, PY_RETVAL, Owned)
  }

  lemma LoneGErrorConverts(ret: ReturnType, p: Parameter, o: Oracle)
    requires DistinctNames([p]) && p.GErrorParam? && o(New(PY_SELF))
    ensures var out := Run(ConvertAll(ret, [p]).body, START, o); out.Running? && BeforeCall(out.st)
  {
    assert [p][..0] == [];
    assert ConversionVerdict([], o).Completes? && ConversionVerdict([p], o).Completes?;
    ConversionPhase(ret, [p], o);
    PyMethodUnused(ConvertAll(ret, [p]), Run(ConvertAll(ret, [p]).body, START, o).st, [p], o);
  }

  lemma LoneCallLeaks(g: Gen, ret: ReturnType, st: State, check: Instr, o: Oracle)
    requires !HasTuple(g) && g.checks == [check] && check.Check? && check.guard.Fails? && !o(check.guard.site)
    requires check.actions == [Decref(PY_SELF)] + [ReleaseGil] && BeforeCall(st)
    requires !o(New(PY_RETVAL)) && o(New(PY_METHOD))
    ensures var out := Run(CallCode(g, ret), st, o); out.Returned? && Holds(out.st, PY_METHOD, Owned)
  {
    var bound := Put(st, PY_METHOD, Owned);
    var done := Put(bound.(called := Some([])), PY_RETVAL, Null);
    var miss := Check(IsNull(PY_METHOD), g.cleanup, ErrorReturn(ret));
    RunTwo(GetAttr(PY_METHOD, PY_SELF), miss, CallAndChecks(g, ret), st, bound, o);
    CallsNothing(bound, done, o);
    var last := Check(IsNull(PY_RETVAL), CallCleanup(g.cleanup), ErrorReturn(ret));
    RunTwo(Call(PY_RETVAL, PY_METHOD, None), check, [last], bound, done, o);
    SelfAndGilGo(done);
  }

  lemma CallsNothing(bound: State, done: State, o: Oracle)
    requires bound.gil && bound.tuple == [] && Holds(bound, PY_METHOD, Owned) && !Holds(bound, PY_RETVAL, Owned)
    requires done == Put(bound.(called := Some([])), PY_RETVAL, Null) && !o(New(PY_RETVAL))
    ensures Exec(Call(PY_RETVAL, PY_METHOD, None), bound, o) == Running(done)
  {
    assert Items([]) == [];
  }

  lemma SelfAndGilGo(st: State)
    requires Holds(st, PY_SELF, Owned) && st.gil
    ensures ActAll([Decref(PY_SELF)] + [ReleaseGil], st) == Running(Put(st, PY_SELF, Released).(gil := false))
  {
    ActAllAppend([Decref(PY_SELF)], [ReleaseGil], st);
    assert [Decref(PY_SELF)][1..] == [] && [ReleaseGil][1..] == [];
  }

  lemma RetvalIsNoParameter(ps: seq<Parameter>)
    requires DistinctNames(ps)
    ensures forall p :: p in ps ==> PyVar(p.name) != PY_RETVAL
  {
    forall p | p in ps
      ensures PyVar(p.name) != PY_RETVAL
    {
      var i :| 0 <= i < |ps| && ps[i] == p;
      PyVarInjective(p.name, "retval");
    }
  }

  lemma {:induction false} AllConverted(ps: seq<Parameter>, o: Oracle)
    requires forall site: Site :: !site.GErrorTest? && site != New(PY_RETVAL) ==> o(site)
    requires forall p :: p in ps ==> PyVar(p.name) != PY_RETVAL
    ensures ConversionVerdict(ps, o).Completes?
  {
    if ps != [] {
      AllConverted(ps[..|ps| - 1], o);
    }
  }
}
