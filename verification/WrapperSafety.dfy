/**
 What every execution of every generated reverse wrapper does with its references.

 `Predict` predicts the end of an execution from the parameter list and the outcome of each
 operation alone; `WrapperVerdict` proves the prediction for all wrappers and all executions.
 */
module WrapperSafety {
  import opened Sequences
  import opened Wrappers
  import opened WrapperCode
  import opened ReverseWrapper

  // ---------- parameters, seen from the outside ----------

  /** The conversion result is compared with NULL. */
  predicate Checked(p: Parameter) {
    p.GEnumParam? || p.GFlagsParam? || p.GtkTreePathParam? || (p.StringParam? && !p.optional && !p.nullok)
  }

  /** The conversion creates an object and its result is never compared with NULL. */
  predicate Unchecked(p: Parameter) {
    || p.GObjectParam? || p.IntParam? || p.DoubleParam? || p.GBoxedParam? || p.GdkRectanglePtrParam?
    || (p.IntPtrParam? && p.inout) || (p.StringParam? && !p.optional && p.nullok)
  }

  predicate IsOptional(p: Parameter) {
    p.StringParam? && p.optional
  }

  predicate IsOutput(p: Parameter) {
    p.IntPtrParam? || p.DoublePtrParam?
  }

  predicate Succeeds(p: Parameter, o: Oracle) {
    o(New(PyVar(p.name)))
  }

  function FixedArgs(ps: seq<Parameter>): seq<string> {
    if ps == [] then [] else
    var p := ps[|ps| - 1];
    FixedArgs(ps[..|ps| - 1]) + if Checked(p) || Unchecked(p) || p.BooleanParam? then [PyVar(p.name)] else []
  }

  function OptionalArgs(ps: seq<Parameter>): seq<string> {
    if ps == [] then [] else
    var p := ps[|ps| - 1];
    OptionalArgs(ps[..|ps| - 1]) + if IsOptional(p) then [PyVar(p.name)] else []
  }

  function Outputs(ps: seq<Parameter>): nat {
    if ps == [] then 0 else
    Outputs(ps[..|ps| - 1]) + if IsOutput(ps[|ps| - 1]) then 1 else 0
  }

  const RESERVED := {"self", "args", "method", "retval", "main_retval"}

  /** The C compiler rejects a wrapper that declares a variable twice. */
  predicate DistinctNames(ps: seq<Parameter>) {
    && (forall i :: 0 <= i < |ps| ==> ps[i].name !in RESERVED)
    && (forall i, j :: 0 <= i < j < |ps| ==> ps[i].name != ps[j].name)
  }

  // ---------- the prediction ----------

  datatype Verdict = Misuse | EarlyExit | Completes

  ghost predicate NullArgument(ps: seq<Parameter>, o: Oracle) {
    exists i :: 0 <= i < |ps| && Unchecked(ps[i]) && !Succeeds(ps[i], o)
  }

  ghost predicate GErrorRaised(ps: seq<Parameter>, o: Oracle) {
    exists i :: 0 <= i < |ps| && ps[i].GErrorParam? && !o(GErrorTest(ps[i].name))
  }

  ghost predicate OptionalGap(vs: seq<string>, o: Oracle) {
    exists i, j :: 0 <= i < j < |vs| && !o(New(vs[i])) && o(New(vs[j]))
  }

  /** The optional arguments that were given. */
  function Given(vs: seq<string>, o: Oracle): (given: seq<string>)
    ensures |given| <= |vs|
  {
    if vs == [] then [] else (if o(New(vs[0])) then [vs[0]] else []) + Given(vs[1..], o)
  }

  /** What the Python method is to be called with. */
  function CallArgs(ps: seq<Parameter>, o: Oracle): seq<string> {
    FixedArgs(ps) + Given(OptionalArgs(ps), o)
  }

  /** The argument tuple cannot be allocated, or has no slot for an argument. */
  ghost predicate TupleFaults(ps: seq<Parameter>, o: Oracle) {
    (CallArgs(ps, o) != [] && !o(New(PY_ARGS))) || OptionalGap(OptionalArgs(ps), o)
  }

  /** The conversions, in order: the first checked one that fails ends the execution. */
  ghost function ConversionVerdict(ps: seq<Parameter>, o: Oracle): Verdict {
    if ps == [] then (if o(New(PY_SELF)) then Completes else EarlyExit) else
    var before := ps[..|ps| - 1];
    var verdict := ConversionVerdict(before, o);
    if verdict.Completes? && Checked(ps[|ps| - 1]) && !Succeeds(ps[|ps| - 1], o) then
      (if NullArgument(before, o) then Misuse else EarlyExit)
    else verdict
  }

  function ReturnVerdict(ret: ReturnType, outputs: nat, o: Oracle): Verdict {
    if ret.VoidReturn? then
      (if o(if outputs == 0 then TypeTest else Parse) then Completes else EarlyExit)
    else if ret.StringReturn? || ret.IntReturn? || ret.DoubleReturn? || ret.BooleanReturn? then
      if outputs == 0 && !o(Repack) then Misuse else if o(Parse) then Completes else EarlyExit
    else
      (if o(TypeTest) then Completes else EarlyExit)
  }

  ghost function Predict(ret: ReturnType, ps: seq<Parameter>, o: Oracle): Verdict {
    var converted := ConversionVerdict(ps, o);
    if !converted.Completes? then converted
    else if TupleFaults(ps, o) then Misuse
    else if !o(New(PY_METHOD)) then EarlyExit
    else if NullArgument(ps, o) then Misuse
    else if GErrorRaised(ps, o) then Misuse
    else if !o(New(PY_RETVAL)) then EarlyExit
    else ReturnVerdict(ret, Outputs(ps), o)
  }

  // ---------- cleanup lists ----------

  function DecrefVars(cs: seq<Action>): set<string> {
    if cs == [] then {} else (if cs[0].Decref? then {cs[0].v} else {}) + DecrefVars(cs[1..])
  }

  function XdecrefVars(cs: seq<Action>): set<string> {
    if cs == [] then {} else (if cs[0].Xdecref? then {cs[0].v} else {}) + XdecrefVars(cs[1..])
  }

  function Dues(cs: seq<Action>): set<string> {
    DecrefVars(cs) + XdecrefVars(cs)
  }

  /** Each variable is released by one action at most, and the GIL last of all. */
  predicate WellFormed(cs: seq<Action>) {
    if |cs| <= 1 then cs == [ReleaseGil]
    else !cs[0].ReleaseGil? && cs[0].v !in Dues(cs[1..]) && WellFormed(cs[1..])
  }

  /** Running the cleanup list would release exactly what is owned, each reference once. */
  ghost predicate Settled(cs: seq<Action>, st: State) {
    && st.gil
    && WellFormed(cs)
    && (forall v :: v in Dues(cs) ==> Holds(st, v, Owned) || Holds(st, v, Null))
    && (forall v :: Holds(st, v, Owned) ==> v in Dues(cs))
  }

  ghost predicate NullDecref(cs: seq<Action>, st: State) {
    exists v :: v in DecrefVars(cs) && Holds(st, v, Null)
  }

  ghost predicate Discharged(outcome: Outcome, st: State) {
    && outcome.Running?
    && !outcome.st.gil
    && (forall v :: !Holds(outcome.st, v, Owned))
    && outcome.st.retval == st.retval && outcome.st.called == st.called
  }

  lemma OnlyRelease(st: State)
    ensures DecrefVars([ReleaseGil]) == {} && XdecrefVars([ReleaseGil]) == {}
    ensures st.gil ==> ActAll([ReleaseGil], st) == Running(st.(gil := false))
  {
    var rest := [ReleaseGil][1..];
    assert rest == [];
    assert DecrefVars(rest) == {} && XdecrefVars(rest) == {};
  }

  lemma OthersKeep(st: State, v: string, slot: Slot)
    ensures forall w, s :: w != v ==> (Holds(Put(st, v, slot), w, s) <==> Holds(st, w, s))
  {
  }

  lemma {:induction false} Discharge(cs: seq<Action>, st: State)
    requires Settled(cs, st)
    ensures if NullDecref(cs, st) then ActAll(cs, st) == Fault else Discharged(ActAll(cs, st), st)
  {
    if |cs| == 1 {
      OnlyRelease(st);
      assert cs == [ReleaseGil];
      assert forall v :: Holds(st.(gil := false), v, Owned) ==> Holds(st, v, Owned);
    } else if !(cs[0].Decref? && Holds(st, cs[0].v, Null)) {
      var v := cs[0].v;
      assert v in Dues(cs);
      var next := if Holds(st, v, Owned) then Put(st, v, Released) else st;
      assert Act(cs[0], st) == Running(next);
      OthersKeep(st, v, Released);
      Discharge(cs[1..], next);
      assert NullDecref(cs[1..], next) <==> NullDecref(cs, st);
    } else {
      assert cs[0].v in DecrefVars(cs);
    }
  }

  /** A cleanup list that starts with the reference just acquired in `v`. */
  lemma SettledAfterAcquire(cs: seq<Action>, st: State, action: Action, slot: Slot)
    requires Settled(cs, st) && !action.ReleaseGil? && action.v !in st.vars
    requires slot == Owned || slot == Null
    ensures Settled([action] + cs, Put(st, action.v, slot))
    ensures NullDecref([action] + cs, Put(st, action.v, slot)) <==>
            NullDecref(cs, st) || (action.Decref? && slot == Null)
  {
    var ds, next, v := [action] + cs, Put(st, action.v, slot), action.v;
    assert ds[1..] == cs;
    assert !Holds(st, v, Owned) && !Holds(st, v, Null);
    assert v !in Dues(cs);
    assert forall w :: w != v ==> (Holds(next, w, Owned) <==> Holds(st, w, Owned));
    assert forall w :: w != v ==> (Holds(next, w, Null) <==> Holds(st, w, Null));
    assert action.Decref? ==> v in DecrefVars(ds);
    assert DecrefVars(cs) <= DecrefVars(ds);
  }

  lemma {:induction false} MembersOfCleanup(cs: seq<Action>, v: string)
    ensures Decref(v) in cs <==> v in DecrefVars(cs)
    ensures Xdecref(v) in cs <==> v in XdecrefVars(cs)
  {
    if cs != [] {
      MembersOfCleanup(cs[1..], v);
      assert forall a :: a in cs <==> a == cs[0] || a in cs[1..];
    }
  }

  lemma {:induction false} RemoveOne(cs: seq<Action>, action: Action)
    requires WellFormed(cs) && action in cs && !action.ReleaseGil?
    ensures WellFormed(Remove(cs, action))
    ensures DecrefVars(Remove(cs, action)) == DecrefVars(cs) - {action.v}
    ensures XdecrefVars(Remove(cs, action)) == XdecrefVars(cs) - {action.v}
  {
    if |cs| > 1 && cs[0] != action {
      assert action in cs[1..];
      MembersOfCleanup(cs[1..], action.v);
      RemoveOne(cs[1..], action);
      var ds := Remove(cs, action);
      assert ds[1..] == Remove(cs[1..], action);
      assert |ds[1..]| > 0;
    }
  }

  /** Dropping the cleanup of a variable whose reference has just been stolen (or is NULL). */
  lemma SettledAfterRemove(cs: seq<Action>, st: State, action: Action, next: State)
    requires Settled(cs, st) && action in cs && !action.ReleaseGil?
    requires next.gil && next.vars == st.vars[action.v := if Holds(st, action.v, Owned) then Moved else Null]
    ensures Settled(Remove(cs, action), next)
    ensures DecrefVars(Remove(cs, action)) == DecrefVars(cs) - {action.v}
    ensures XdecrefVars(Remove(cs, action)) == XdecrefVars(cs) - {action.v}
  {
    RemoveOne(cs, action);
    assert forall w :: w != action.v ==> (Holds(next, w, Owned) <==> Holds(st, w, Owned));
    assert forall w :: w != action.v ==> (Holds(next, w, Null) <==> Holds(st, w, Null));
  }

  // ---------- the conversions ----------

  function ParamVars(ps: seq<Parameter>): set<string> {
    set i | 0 <= i < |ps| :: PyVar(ps[i].name)
  }

  lemma PyVarInjective(a: string, b: string)
    ensures PyVar(a) == PyVar(b) ==> a == b
  {
    assert PyVar(a)[3..] == a && PyVar(b)[3..] == b;
  }

  function ErrorValueOf(ret: ReturnType): Value {
    match ret
    case VoidReturn => Nothing
    case GBoxedReturn => Indeterminate
    case _ => ErrorValue
  }

  ghost predicate EndsEarly(outcome: Outcome, ret: ReturnType) {
    Clean(outcome) && outcome.value == ErrorValueOf(ret)
  }

  ghost predicate ExitsUncalled(outcome: Outcome, ret: ReturnType) {
    EndsEarly(outcome, ret) && outcome.st.called == None
  }

  /** The GError checks leave the state alone, or leave py_method unreleased. */
  ghost predicate ChecksBehave(checks: seq<Instr>, raised: bool, o: Oracle) {
    forall st: State :: st.gil && Holds(st, PY_METHOD, Owned) ==>
      if raised then Run(checks, st, o) == Fault || Leaks(Run(checks, st, o))
      else Run(checks, st, o) == Running(st)
  }

  ghost predicate Leaks(outcome: Outcome) {
    outcome.Returned? && Holds(outcome.st, PY_METHOD, Owned)
  }

  ghost predicate Distinct(vs: seq<string>) {
    forall i, j :: 0 <= i < j < |vs| ==> vs[i] != vs[j]
  }

  ghost predicate FixedReady(v: string, cleanup: seq<Action>, st: State) {
    if Holds(st, v, Borrowed) then v !in DecrefVars(cleanup)
    else (Holds(st, v, Owned) || Holds(st, v, Null)) && v in DecrefVars(cleanup)
  }

  ghost predicate OptionalReady(v: string, cleanup: seq<Action>, st: State, o: Oracle) {
    Holds(st, v, if o(New(v)) then Owned else Null) && v in XdecrefVars(cleanup)
  }

  /** Every argument is held, with the cleanup action that stealing it will remove. */
  ghost predicate Pending(args: seq<string>, optionals: seq<string>, cleanup: seq<Action>, st: State, o: Oracle) {
    && Distinct(args + optionals) && PY_SELF !in args + optionals
    && (forall v :: v in args ==> FixedReady(v, cleanup, st))
    && (forall v :: v in optionals ==> OptionalReady(v, cleanup, st, o))
    && (forall v :: v in DecrefVars(cleanup) ==> v == PY_SELF || v in args)
  }

  /** All parameters in `ps` have been converted. */
  ghost predicate ConvertedAll(g: Gen, st: State, ps: seq<Parameter>, o: Oracle) {
    && Settled(g.cleanup, st)
    && st.tuple == [] && !st.retval && st.called == None
    && Holds(st, PY_SELF, Owned)
    && (forall v :: v in st.vars ==> v == PY_SELF || v in ParamVars(ps))
    && Pending(g.args, g.optionals, g.cleanup, st, o)
    && (NullDecref(g.cleanup, st) <==> NullArgument(ps, o))
    && ChecksBehave(g.checks, GErrorRaised(ps, o), o)
  }

  lemma NewNameIsUnused(g: Gen, st: State, ps: seq<Parameter>, p: Parameter, o: Oracle)
    requires DistinctNames(ps + [p]) && ConvertedAll(g, st, ps, o)
    ensures PyVar(p.name) !in st.vars
    ensures PyVar(p.name) !in g.args + g.optionals
    ensures PyVar(p.name) !in Dues(g.cleanup)
    ensures PyVar(p.name) !in {PY_SELF, PY_ARGS, PY_METHOD, PY_RETVAL}
  {
    var v := PyVar(p.name);
    assert (ps + [p])[|ps|] == p;
    PyVarInjective(p.name, "self");
    PyVarInjective(p.name, "args");
    PyVarInjective(p.name, "method");
    PyVarInjective(p.name, "retval");
    forall i | 0 <= i < |ps|
      ensures v != PyVar(ps[i].name)
    {
      assert (ps + [p])[i] == ps[i];
      PyVarInjective(p.name, ps[i].name);
    }
    assert v !in st.vars;
    assert !Holds(st, v, Owned) && !Holds(st, v, Null) && !Holds(st, v, Borrowed);
    assert v !in g.args by { assert !FixedReady(v, g.cleanup, st); }
    assert v !in g.optionals by { assert !OptionalReady(v, g.cleanup, st, o); }
  }

  lemma Extend(ps: seq<Parameter>, p: Parameter, o: Oracle)
    ensures (ps + [p])[..|ps|] == ps
    ensures ParamVars(ps + [p]) == ParamVars(ps) + {PyVar(p.name)}
    ensures NullArgument(ps + [p], o) <==> NullArgument(ps, o) || (Unchecked(p) && !Succeeds(p, o))
    ensures GErrorRaised(ps + [p], o) <==> GErrorRaised(ps, o) || (p.GErrorParam? && !o(GErrorTest(p.name)))
  {
    var qs := ps + [p];
    assert qs[..|ps|] == ps;
    assert qs[|ps|] == p;
    assert forall i :: 0 <= i < |ps| ==> qs[i] == ps[i];
    assert forall v :: v in ParamVars(ps) ==> v in ParamVars(qs);
  }

  /** One conversion that creates an object: the common part of most parameter types. */
  lemma ConvertNewStep(g: Gen, ret: ReturnType, st: State, ps: seq<Parameter>, p: Parameter, o: Oracle, v: string)
      returns (code: seq<Instr>)
    requires ConvertedAll(g, st, ps, o) && DistinctNames(ps + [p]) && v == PyVar(p.name)
    requires Checked(p) || Unchecked(p)
    ensures ConvertNew(g, ret, v, Checked(p)).body == g.body + code
    ensures ConversionStepEnds(ConvertNew(g, ret, v, Checked(p)), ret, ps, p, o, Run(code, st, o))
  {
    var exit := if Checked(p) then [Check(IsNull(v), g.cleanup, ErrorReturn(ret))] else [];
    code := [Acquire(v)] + exit;
    AcquiredThen(g, ret, st, ps, p, o, v);
    if Checked(p) && !o(New(v)) {
      NewNameIsUnused(g, st, ps, p, o);
      FailedConversion(g, ret, st, v, ps, o);
    } else {
      SuccessfulNew(g, ret, st, ps, p, o, v);
    }
  }

  lemma AcquiredThen(g: Gen, ret: ReturnType, st: State, ps: seq<Parameter>, p: Parameter, o: Oracle, v: string)
    requires ConvertedAll(g, st, ps, o) && DistinctNames(ps + [p]) && v == PyVar(p.name)
    ensures var exit := if Checked(p) then [Check(IsNull(v), g.cleanup, ErrorReturn(ret))] else [];
            var after := Put(st, v, if o(New(v)) then Owned else Null);
            && Run([Acquire(v)] + exit, st, o) == Run(exit, after, o)
            && (o(New(v)) || !Checked(p) ==> Run(exit, after, o) == Running(after))
  {
    NewNameIsUnused(g, st, ps, p, o);
    var check := Check(IsNull(v), g.cleanup, ErrorReturn(ret));
    RunOne(Acquire(v), st, o);
    RunAppend([Acquire(v)], if Checked(p) then [check] else [], st, o);
    RunOne(check, Put(st, v, if o(New(v)) then Owned else Null), o);
  }

  lemma SuccessfulNew(g: Gen, ret: ReturnType, st: State, ps: seq<Parameter>, p: Parameter, o: Oracle, v: string)
    requires ConvertedAll(g, st, ps, o) && DistinctNames(ps + [p]) && v == PyVar(p.name)
    requires Unchecked(p) || (Checked(p) && o(New(v)))
    ensures ConvertedAll(ConvertNew(g, ret, v, Checked(p)), Put(st, v, if o(New(v)) then Owned else Null), ps + [p], o)
  {
    var next := ConvertNew(g, ret, v, Checked(p));
    var slot := if o(New(v)) then Owned else Null;
    var after := Put(st, v, slot);
    NewNameIsUnused(g, st, ps, p, o);
    Extend(ps, p, o);
    SettledAfterAcquire(g.cleanup, st, Decref(v), slot);
    assert next.cleanup == [Decref(v)] + g.cleanup && next.cleanup[1..] == g.cleanup;
    OthersKeep(st, v, slot);
    PendingWithNew(g.args, g.optionals, g.cleanup, st, o, v);
  }

  lemma PendingWithNew(args: seq<string>, optionals: seq<string>, cs: seq<Action>, st: State, o: Oracle, v: string)
    requires Pending(args, optionals, cs, st, o) && v !in args + optionals && v != PY_SELF
    ensures Pending(args + [v], optionals, [Decref(v)] + cs, Put(st, v, if o(New(v)) then Owned else Null), o)
  {
    var ds, after := [Decref(v)] + cs, Put(st, v, if o(New(v)) then Owned else Null);
    assert ds[1..] == cs;
    assert DecrefVars(ds) == {v} + DecrefVars(cs) && XdecrefVars(ds) == XdecrefVars(cs);
    forall w | w in args + optionals
      ensures w != v
      ensures w in args ==> FixedReady(w, ds, after)
      ensures w in optionals ==> OptionalReady(w, ds, after, o)
    {
      assert w in args ==> FixedReady(w, cs, st);
      assert w in optionals ==> OptionalReady(w, cs, st, o);
    }
    DistinctInsert(args, optionals, v);
  }

  lemma DistinctInsert(a: seq<string>, b: seq<string>, v: string)
    requires Distinct(a + b) && v !in a + b
    ensures Distinct(a + [v] + b) && Distinct(a + (b + [v]))
  {
    var ab := a + b;
    assert forall i :: 0 <= i < |ab| ==> ab[i] != v;
    var c := a + [v] + b;
    assert forall i :: 0 <= i < |c| && i != |a| ==> c[i] == ab[if i < |a| then i else i - 1];
    var d := a + (b + [v]);
    assert forall i :: 0 <= i < |ab| ==> d[i] == ab[i];
  }

  lemma FailedConversion(g: Gen, ret: ReturnType, st: State, v: string, ps: seq<Parameter>, o: Oracle)
    requires ConvertedAll(g, st, ps, o) && v !in st.vars && v !in Dues(g.cleanup)
    ensures var out := Run([Check(IsNull(v), g.cleanup, ErrorReturn(ret))], Put(st, v, Null), o);
            if NullArgument(ps, o) then out == Fault else ExitsUncalled(out, ret)
  {
    var after := Put(st, v, Null);
    assert forall w :: w != v ==> (Holds(after, w, Owned) <==> Holds(st, w, Owned));
    assert forall w :: w != v ==> (Holds(after, w, Null) <==> Holds(st, w, Null));
    assert Settled(g.cleanup, after);
    Discharge(g.cleanup, after);
    assert NullDecref(g.cleanup, after) <==> NullDecref(g.cleanup, st);
  }

  lemma PendingWithOptional(args: seq<string>, optionals: seq<string>, cs: seq<Action>, st: State, o: Oracle, v: string)
    requires Pending(args, optionals, cs, st, o) && v !in args + optionals && v != PY_SELF
    ensures Pending(args, optionals + [v], [Xdecref(v)] + cs, Put(st, v, if o(New(v)) then Owned else Null), o)
  {
    var ds, after := [Xdecref(v)] + cs, Put(st, v, if o(New(v)) then Owned else Null);
    assert ds[1..] == cs;
    assert DecrefVars(ds) == DecrefVars(cs) && XdecrefVars(ds) == {v} + XdecrefVars(cs);
    forall w | w in args + optionals
      ensures w != v
      ensures w in args ==> FixedReady(w, ds, after)
      ensures w in optionals ==> OptionalReady(w, ds, after, o)
    {
      assert w in args ==> FixedReady(w, cs, st);
      assert w in optionals ==> OptionalReady(w, cs, st, o);
    }
    DistinctInsert(args, optionals, v);
  }

  lemma PendingWithBorrowed(args: seq<string>, optionals: seq<string>, cs: seq<Action>, st: State, o: Oracle, v: string)
    requires Pending(args, optionals, cs, st, o) && v !in args + optionals && v != PY_SELF && v !in Dues(cs)
    ensures Pending(args + [v], optionals, cs, Put(st, v, Borrowed), o)
  {
    var after := Put(st, v, Borrowed);
    forall w | w in args + optionals
      ensures w != v
      ensures w in args ==> FixedReady(w, cs, after)
      ensures w in optionals ==> OptionalReady(w, cs, after, o)
    {
      assert w in args ==> FixedReady(w, cs, st);
      assert w in optionals ==> OptionalReady(w, cs, st, o);
    }
    DistinctInsert(args, optionals, v);
  }

  lemma ConvertOptionalStep(g: Gen, ret: ReturnType, st: State, ps: seq<Parameter>, p: Parameter, o: Oracle)
    requires ConvertedAll(g, st, ps, o) && DistinctNames(ps + [p]) && IsOptional(p)
    ensures var next := ConvertC2py(g, ret, p);
            var after := Put(st, PyVar(p.name), if Succeeds(p, o) then Owned else Null);
            && next.body == g.body + [Acquire(PyVar(p.name))]
            && Run([Acquire(PyVar(p.name))], st, o) == Running(after)
            && ConvertedAll(next, after, ps + [p], o)
  {
    var v := PyVar(p.name);
    var next := ConvertC2py(g, ret, p);
    NewNameIsUnused(g, st, ps, p, o);
    Extend(ps, p, o);
    SettledAfterAcquire(g.cleanup, st, Xdecref(v), if Succeeds(p, o) then Owned else Null);
    PendingWithOptional(g.args, g.optionals, g.cleanup, st, o, v);
    assert next.body == g.body + [Acquire(v)];
    assert [Acquire(v)][1..] == [];
  }

  lemma SettledAfterBorrow(cs: seq<Action>, st: State, v: string)
    requires Settled(cs, st) && v !in st.vars
    ensures Settled(cs, Put(st, v, Borrowed)) && (NullDecref(cs, Put(st, v, Borrowed)) <==> NullDecref(cs, st))
  {
    OthersKeep(st, v, Borrowed);
    assert !Holds(st, v, Owned) && !Holds(st, v, Null);
    var after := Put(st, v, Borrowed);
    assert !Holds(after, v, Owned) && !Holds(after, v, Null);
  }

  lemma ConvertBooleanStep(g: Gen, ret: ReturnType, st: State, ps: seq<Parameter>, p: Parameter, o: Oracle)
    requires ConvertedAll(g, st, ps, o) && DistinctNames(ps + [p]) && p.BooleanParam?
    ensures var next := ConvertC2py(g, ret, p);
            var after := Put(st, PyVar(p.name), Borrowed);
            && next.body == g.body + [Borrow(PyVar(p.name))]
            && Run([Borrow(PyVar(p.name))], st, o) == Running(after)
            && ConvertedAll(next, after, ps + [p], o)
  {
    var v := PyVar(p.name);
    ConvertKinds(g, ret, p);
    RunOne(Borrow(v), st, o);
    BorrowedConverted(g, st, ps, p, o, v);
    assert ConvertC2py(g, ret, p) == g.(body := g.body + [Borrow(v)], args := g.args + [v]);
  }

  lemma BorrowedConverted(g: Gen, st: State, ps: seq<Parameter>, p: Parameter, o: Oracle, v: string)
    requires ConvertedAll(g, st, ps, o) && DistinctNames(ps + [p]) && p.BooleanParam? && v == PyVar(p.name)
    ensures ConvertedAll(g.(body := g.body + [Borrow(v)], args := g.args + [v]), Put(st, v, Borrowed), ps + [p], o)
  {
    NewNameIsUnused(g, st, ps, p, o);
    Extend(ps, p, o);
    SettledAfterBorrow(g.cleanup, st, v);
    OthersKeep(st, v, Borrowed);
    PendingWithBorrowed(g.args, g.optionals, g.cleanup, st, o, v);
  }

  lemma {:induction false} ActAllKeeps(cs: seq<Action>, st: State, v: string, slot: Slot)
    requires v !in Dues(cs) && Holds(st, v, slot)
    ensures ActAll(cs, st).Running? ==> Holds(ActAll(cs, st).st, v, slot)
    ensures !ActAll(cs, st).Returned?
  {
    if cs != [] {
      var first := Act(cs[0], st);
      if first.Running? {
        ActAllKeeps(cs[1..], first.st, v, slot);
      }
    }
  }

  lemma ConvertGErrorStep(g: Gen, ret: ReturnType, st: State, ps: seq<Parameter>, p: Parameter, o: Oracle)
    requires ConvertedAll(g, st, ps, o) && DistinctNames(ps + [p]) && p.GErrorParam?
    ensures var next := ConvertC2py(g, ret, p);
            next.body == g.body && ConvertedAll(next, st, ps + [p], o)
  {
    var check := Check(Fails(GErrorTest(p.name)), g.cleanup, ErrorReturn(ret));
    ConvertKinds(g, ret, p);
    assert [] + [check] == [check];
    assert ConvertC2py(g, ret, p) == g.(checks := g.checks + [check]);
    OneMoreCheckConverted(g, ret, st, ps, p, o);
  }

  lemma OneMoreCheckConverted(g: Gen, ret: ReturnType, st: State, ps: seq<Parameter>, p: Parameter, o: Oracle)
    requires ConvertedAll(g, st, ps, o) && DistinctNames(ps + [p]) && p.GErrorParam?
    ensures ConvertedAll(g.(checks := g.checks + [Check(Fails(GErrorTest(p.name)), g.cleanup, ErrorReturn(ret))]), st,
                         ps + [p], o)
  {
    Extend(ps, p, o);
    assert DistinctNames(ps) by {
      assert forall i :: 0 <= i < |ps| ==> (ps + [p])[i] == ps[i];
    }
    PyMethodUnused(g, st, ps, o);
    OneMoreCheck(g.checks, GErrorRaised(ps, o), g.cleanup, p.name, ErrorReturn(ret), o);
  }

  /** The exit of a GError check is a snapshot taken before py_method was acquired. */
  lemma OneMoreCheck(checks: seq<Instr>, raised: bool, snapshot: seq<Action>, name: string, value: ExitValue, o: Oracle)
    requires ChecksBehave(checks, raised, o) && PY_METHOD !in Dues(snapshot)
    ensures ChecksBehave(checks + [Check(Fails(GErrorTest(name)), snapshot, value)], raised || !o(GErrorTest(name)), o)
  {
    var check := Check(Fails(GErrorTest(name)), snapshot, value);
    forall s: State | s.gil && Holds(s, PY_METHOD, Owned)
      ensures var out := Run(checks + [check], s, o);
              if raised || !o(GErrorTest(name)) then out == Fault || Leaks(out) else out == Running(s)
    {
      RunAppend(checks, [check], s, o);
      RunOne(check, s, o);
      ActAllKeeps(snapshot, s, PY_METHOD, Owned);
    }
  }

  lemma PyMethodUnused(g: Gen, st: State, ps: seq<Parameter>, o: Oracle)
    requires ConvertedAll(g, st, ps, o) && DistinctNames(ps)
    ensures forall v :: v in {PY_ARGS, PY_METHOD, PY_RETVAL} ==> v !in st.vars && v !in Dues(g.cleanup)
  {
    forall v | v in {PY_ARGS, PY_METHOD, PY_RETVAL}
      ensures v !in st.vars && v !in Dues(g.cleanup)
    {
      forall i | 0 <= i < |ps|
        ensures v != PyVar(ps[i].name)
      {
        PyVarInjective(ps[i].name, "args");
        PyVarInjective(ps[i].name, "method");
        PyVarInjective(ps[i].name, "retval");
      }
      assert !Holds(st, v, Owned) && !Holds(st, v, Null);
    }
  }

  /** The generated conversions, and only they, decide whether the wrapper gets as far as the call. */
  lemma {:induction false} ConversionPhase(ret: ReturnType, ps: seq<Parameter>, o: Oracle)
    requires DistinctNames(ps)
    ensures ConversionEnds(ret, ps, o, Run(ConvertAll(ret, ps).body, START, o))
  {
    if ps == [] {
      ProloguePhase(ret, o);
    } else {
      var before, p := ps[..|ps| - 1], ps[|ps| - 1];
      assert ps == before + [p];
      assert DistinctNames(before);
      ConversionPhase(ret, before, o);
      var g := ConvertAll(ret, before);
      var out := Run(g.body, START, o);
      if ConversionVerdict(before, o).Completes? {
        var code := ConversionStep(g, ret, out.st, before, p, o);
        RunAppend(g.body, code, START, o);
      } else {
        BodyOnlyGrows(g, ret, p);
        StaysEnded(g.body, ConvertC2py(g, ret, p).body, o);
      }
    }
  }

  ghost predicate ConversionEnds(ret: ReturnType, ps: seq<Parameter>, o: Oracle, out: Outcome) {
    match ConversionVerdict(ps, o)
    case Completes => out.Running? && ConvertedAll(ConvertAll(ret, ps), out.st, ps, o)
    case EarlyExit => ExitsUncalled(out, ret)
    case Misuse => out == Fault
  }

  /** Code behind an exit is never reached. */
  lemma StaysEnded(code: seq<Instr>, longer: seq<Instr>, o: Oracle)
    requires code <= longer && !Run(code, START, o).Running?
    ensures Run(longer, START, o) == Run(code, START, o)
  {
    assert longer == code + longer[|code|..];
    RunAppend(code, longer[|code|..], START, o);
  }

  /** The conversions by what they do: create an object, take an optional or borrowed one, or only
      note something. */
  lemma ConvertKinds(g: Gen, ret: ReturnType, p: Parameter)
    ensures var next, v := ConvertC2py(g, ret, p), PyVar(p.name);
            if Checked(p) || Unchecked(p) then
              var plain := ConvertNew(g, ret, v, Checked(p));
              next == if p.IntPtrParam? then AddParse(plain, "i", p.name) else plain
            else if IsOptional(p) then
              next == WriteCode(g, ret, [Acquire(v)], Some(Xdecref(v)), None, Body).(optionals := g.optionals + [v])
            else if p.BooleanParam? then next == AddPyargv(WriteCode(g, ret, [Borrow(v)], None, None, Body), v)
            else if p.GErrorParam? then
              next == WriteCode(g, ret, [], None, Some(Fails(GErrorTest(p.name))), CheckException)
            else IsOutput(p) && next == AddParse(g, if p.IntPtrParam? then "i" else "d", p.name)
  {
  }

  lemma BodyOnlyGrows(g: Gen, ret: ReturnType, p: Parameter)
    ensures g.body <= ConvertC2py(g, ret, p).body
  {
    ConvertKinds(g, ret, p);
  }

  ghost predicate ConversionStepEnds(next: Gen, ret: ReturnType, ps: seq<Parameter>, p: Parameter, o: Oracle,
                                     out: Outcome)
  {
    if Checked(p) && !Succeeds(p, o) then
      if NullArgument(ps, o) then out == Fault else ExitsUncalled(out, ret)
    else out.Running? && ConvertedAll(next, out.st, ps + [p], o)
  }

  lemma ConversionStep(g: Gen, ret: ReturnType, st: State, ps: seq<Parameter>, p: Parameter, o: Oracle)
      returns (code: seq<Instr>)
    requires ConvertedAll(g, st, ps, o) && DistinctNames(ps + [p])
    ensures ConvertC2py(g, ret, p).body == g.body + code
    ensures ConversionStepEnds(ConvertC2py(g, ret, p), ret, ps, p, o, Run(code, st, o))
  {
    var v := PyVar(p.name);
    if Checked(p) || Unchecked(p) {
      code := ConvertNewStep(g, ret, st, ps, p, o, v);
      ConvertKinds(g, ret, p);
    } else if IsOptional(p) {
      ConvertOptionalStep(g, ret, st, ps, p, o);
      code := [Acquire(v)];
    } else if p.BooleanParam? {
      ConvertBooleanStep(g, ret, st, ps, p, o);
      code := [Borrow(v)];
    } else {
      ConvertNothingStep(g, ret, st, ps, p, o);
      code := [];
      assert g.body + [] == g.body;
    }
  }

  /** Output parameters and GError parameters write nothing to the body. */
  lemma ConvertNothingStep(g: Gen, ret: ReturnType, st: State, ps: seq<Parameter>, p: Parameter, o: Oracle)
    requires ConvertedAll(g, st, ps, o) && DistinctNames(ps + [p])
    requires !Checked(p) && !Unchecked(p) && !IsOptional(p) && !p.BooleanParam?
    ensures ConvertC2py(g, ret, p).body == g.body
    ensures ConvertedAll(ConvertC2py(g, ret, p), st, ps + [p], o)
  {
    ConvertKinds(g, ret, p);
    Extend(ps, p, o);
    if p.GErrorParam? {
      ConvertGErrorStep(g, ret, st, ps, p, o);
    }
  }

  const SELF_CLEANUP := [Decref(PY_SELF), ReleaseGil]

  lemma ProloguePhase(ret: ReturnType, o: Oracle)
    ensures var g, out := Prologue(ret), Run(Prologue(ret).body, START, o);
            if o(New(PY_SELF)) then out.Running? && ConvertedAll(g, out.st, [], o) else ExitsUncalled(out, ret)
  {
    var check := Check(IsNull(PY_SELF), [ReleaseGil], ErrorReturn(ret));
    var st := Put(START.(gil := true), PY_SELF, if o(New(PY_SELF)) then Owned else Null);
    PrologueRuns(ret, check, st, o);
    if o(New(PY_SELF)) {
      SelfConverted(ret, st, o);
    } else {
      assert [ReleaseGil][1..] == [];
      assert ActAll([ReleaseGil], st) == Running(st.(gil := false));
    }
  }

  lemma PrologueRuns(ret: ReturnType, check: Instr, st: State, o: Oracle)
    requires check == Check(IsNull(PY_SELF), [ReleaseGil], ErrorReturn(ret))
    requires st == Put(START.(gil := true), PY_SELF, if o(New(PY_SELF)) then Owned else Null)
    ensures Run(Prologue(ret).body, START, o) == Exec(check, st, o)
  {
    assert [ReleaseGil] + [] == [ReleaseGil];
    assert Prologue(ret).body == [EnsureGil] + ([Acquire(PY_SELF)] + [check]);
    var entered := START.(gil := true);
    assert Exec(EnsureGil, START, o) == Running(entered);
    RunTwo(EnsureGil, Acquire(PY_SELF), [check], START, entered, o);
    assert Exec(Acquire(PY_SELF), entered, o) == Running(st);
    RunOne(check, st, o);
  }

  lemma SelfConverted(ret: ReturnType, st: State, o: Oracle)
    requires st == START.(gil := true, vars := map[PY_SELF := Owned])
    ensures ConvertedAll(Prologue(ret), st, [], o)
  {
    var g := Prologue(ret);
    assert g.cleanup == SELF_CLEANUP;
    assert SELF_CLEANUP[1..] == [ReleaseGil] && [ReleaseGil][1..] == [];
    assert DecrefVars([ReleaseGil]) == {} && XdecrefVars([ReleaseGil]) == {};
    assert DecrefVars(SELF_CLEANUP) == {PY_SELF} && XdecrefVars(SELF_CLEANUP) == {};
    SettledAfterAcquire([ReleaseGil], START.(gil := true), Decref(PY_SELF), Owned);
    assert g.cleanup == [Decref(PY_SELF)] + [ReleaseGil];
    assert START.(gil := true).vars[PY_SELF := Owned] == st.vars;
  }

  // ---------- the argument tuple ----------

  /** The statements written to the body between two states of the generator. */
  function Added(g: Gen, next: Gen): seq<Instr>
    requires g.body <= next.body
  {
    next.body[|g.body|..]
  }

  lemma RunAdded(g: Gen, middle: Gen, next: Gen, st: State, o: Oracle)
    requires g.body <= middle.body <= next.body
    ensures Run(Added(g, next), st, o) == Then(Run(Added(g, middle), st, o), Added(middle, next), o)
  {
    assert Added(g, next) == Added(g, middle) + Added(middle, next);
    RunAppend(Added(g, middle), Added(middle, next), st, o);
  }

  function Slots(st: State, vs: seq<string>): seq<bool> {
    seq(|vs|, i requires 0 <= i < |vs| => Holds(st, vs[i], Null))
  }

  /** The first `pos` fixed arguments have been moved into the tuple; `nulls` says which are NULL. */
  ghost predicate Filling(cs: seq<Action>, st: State, args: seq<string>, optionals: seq<string>, pos: nat,
                          nulls: seq<bool>, o: Oracle)
  {
    && pos <= |args| <= |st.tuple| && |nulls| == |args|
    && Settled(cs, st)
    && Distinct(args + optionals) && PY_SELF !in args + optionals && PY_ARGS !in args + optionals
    && (forall k :: pos <= k < |args| ==> FixedReady(args[k], cs, st))
    && (forall k :: 0 <= k < |args| ==> (nulls[k] <==> Holds(st, args[k], Null)))
    && (forall k :: 0 <= k < |st.tuple| ==>
          st.tuple[k] == if k < pos && !nulls[k] then Some(args[k]) else None)
    && (forall v :: v in optionals ==> OptionalReady(v, cs, st, o))
    && (forall v :: v in DecrefVars(cs) ==> v == PY_SELF || v == PY_ARGS || v in args[pos..])
  }

  ghost predicate SameFrame(a: State, b: State) {
    && a.vars.Keys == b.vars.Keys && a.retval == b.retval && a.called == b.called && |a.tuple| == |b.tuple|
    && (PY_SELF in a.vars ==> a.vars[PY_SELF] == b.vars[PY_SELF])
    && (PY_ARGS in a.vars ==> a.vars[PY_ARGS] == b.vars[PY_ARGS])
  }

  lemma FillFixedStep(g: Gen, st: State, args: seq<string>, optionals: seq<string>, pos: nat, nulls: seq<bool>,
                      o: Oracle)
    returns (code: seq<Instr>)
    requires pos < |args| && Filling(g.cleanup, st, args, optionals, pos, nulls, o)
    ensures PassFixed(g, args[pos], pos).body == g.body + code
    ensures Run(code, st, o).Running? && SameFrame(Run(code, st, o).st, st)
    ensures Filling(PassFixed(g, args[pos], pos).cleanup, Run(code, st, o).st, args, optionals, pos + 1, nulls, o)
  {
    var v := args[pos];
    var next := PassFixed(g, v, pos);
    assert FixedReady(v, g.cleanup, st);
    MembersOfCleanup(g.cleanup, v);
    var moved := if nulls[pos] then st else Put(st, v, Moved).(tuple := st.tuple[pos := Some(v)]);
    assert Steal(st, pos, v) == Running(moved) || Holds(st, v, Borrowed);
    code := if Holds(st, v, Borrowed) then [Incref(v), SetItem(pos, v)] else [SetItem(pos, v)];
    assert next.body == g.body + code;
    assert Run(code, st, o) == Running(moved) by {
      if Holds(st, v, Borrowed) {
        var taken := Put(st, v, Owned);
        assert code == [Incref(v)] + [SetItem(pos, v)];
        RunAppend([Incref(v)], [SetItem(pos, v)], st, o);
        RunOne(Incref(v), st, o);
        RunOne(SetItem(pos, v), taken, o);
        assert Put(taken, v, Moved).vars == moved.vars;
      } else {
        RunOne(SetItem(pos, v), st, o);
      }
    }
    assert SameFrame(moved, st);
    FillFixedFrame(g, st, moved, args, optionals, pos, nulls, o);
  }

  lemma FillFixedFrame(g: Gen, st: State, moved: State, args: seq<string>, optionals: seq<string>, pos: nat,
                       nulls: seq<bool>, o: Oracle)
    requires pos < |args| && Filling(g.cleanup, st, args, optionals, pos, nulls, o)
    requires moved == if nulls[pos] then st else Put(st, args[pos], Moved).(tuple := st.tuple[pos := Some(args[pos])])
    ensures Filling(PassFixed(g, args[pos], pos).cleanup, moved, args, optionals, pos + 1, nulls, o)
  {
    var v, cs := args[pos], PassFixed(g, args[pos], pos).cleanup;
    assert FixedReady(v, g.cleanup, st);
    MembersOfCleanup(g.cleanup, v);
    if Holds(st, v, Borrowed) {
      assert forall w :: w != v ==> (Holds(moved, w, Owned) <==> Holds(st, w, Owned));
      assert forall w :: w != v ==> (Holds(moved, w, Null) <==> Holds(st, w, Null));
      assert Settled(cs, moved);
    } else {
      assert nulls[pos] ==> st.vars[v := Null] == st.vars;
      SettledAfterRemove(g.cleanup, st, Decref(v), moved);
    }
    assert DecrefVars(cs) == DecrefVars(g.cleanup) - {v};
    assert forall w, s :: w != v ==> (Holds(moved, w, s) <==> Holds(st, w, s));
    OthersDiffer(args, optionals, pos);
    assert XdecrefVars(g.cleanup) - {v} <= XdecrefVars(cs);
    RestStaysReady(args, optionals, pos, g.cleanup, cs, st, moved, o);
    forall w | w in DecrefVars(cs)
      ensures w == PY_SELF || w == PY_ARGS || w in args[pos + 1..]
    {
      assert args[pos..] == [v] + args[pos + 1..];
    }
  }

  lemma RestStaysReady(args: seq<string>, optionals: seq<string>, pos: nat, cs: seq<Action>, next: seq<Action>,
                       st: State, moved: State, o: Oracle)
    requires pos < |args| && DecrefVars(next) == DecrefVars(cs) - {args[pos]}
    requires XdecrefVars(cs) - {args[pos]} <= XdecrefVars(next)
    requires forall w, s :: w != args[pos] ==> (Holds(moved, w, s) <==> Holds(st, w, s))
    requires forall k :: 0 <= k < |args| && k != pos ==> args[k] != args[pos]
    requires args[pos] !in optionals
    requires forall k :: pos <= k < |args| ==> FixedReady(args[k], cs, st)
    requires forall w :: w in optionals ==> OptionalReady(w, cs, st, o)
    ensures forall k :: pos < k < |args| ==> FixedReady(args[k], next, moved)
    ensures forall w :: w in optionals ==> OptionalReady(w, next, moved, o)
  {
    forall w | w in optionals
      ensures OptionalReady(w, next, moved, o)
    {
      assert OptionalReady(w, cs, st, o);
    }
  }

  lemma OthersDiffer(args: seq<string>, optionals: seq<string>, pos: nat)
    requires pos < |args| && Distinct(args + optionals)
    ensures forall k :: 0 <= k < |args| && k != pos ==> args[k] != args[pos]
    ensures args[pos] !in optionals
  {
    forall k | 0 <= k < |args| && k != pos
      ensures args[k] != args[pos]
    {
      assert (args + optionals)[k] != (args + optionals)[pos];
    }
    forall i | 0 <= i < |optionals|
      ensures optionals[i] != args[pos]
    {
      assert (args + optionals)[|args| + i] != (args + optionals)[pos];
    }
  }

  lemma {:induction false} FillFixedAll(g: Gen, st: State, args: seq<string>, optionals: seq<string>, pos: nat,
                                        nulls: seq<bool>, o: Oracle)
    requires pos <= |args| && Filling(g.cleanup, st, args, optionals, 0, nulls, o)
    ensures var next := PassAllFixed(g, args[..pos]);
            && g.body <= next.body
            && var out := Run(Added(g, next), st, o);
            && out.Running? && SameFrame(out.st, st)
            && Filling(next.cleanup, out.st, args, optionals, pos, nulls, o)
  {
    if pos > 0 {
      FillFixedAll(g, st, args, optionals, pos - 1, nulls, o);
      assert args[..pos][..pos - 1] == args[..pos - 1];
      var before, next := PassAllFixed(g, args[..pos - 1]), PassAllFixed(g, args[..pos]);
      var code := FillFixedStep(before, Run(Added(g, before), st, o).st, args, optionals, pos - 1, nulls, o);
      assert code == Added(before, next);
      RunAdded(g, before, next, st, o);
    }
  }

  /** Storing into a tuple that could not be allocated. */
  lemma {:induction false} FillNullTuple(g: Gen, st: State, args: seq<string>, o: Oracle)
    requires args != [] && st.tuple == []
    ensures g.body <= PassAllFixed(g, args).body
    ensures Run(Added(g, PassAllFixed(g, args)), st, o) == Fault
  {
    var before, v := args[..|args| - 1], args[|args| - 1];
    var middle, next := PassAllFixed(g, before), PassAllFixed(g, args);
    if before == [] {
      assert Added(g, next) == [SetItem(0, v)] || Added(g, next) == [Incref(v)] + [SetItem(0, v)];
      RunOne(SetItem(0, v), st, o);
      RunOne(Incref(v), st, o);
      RunAppend([Incref(v)], [SetItem(0, v)], st, o);
      RunOne(SetItem(0, v), Put(st, v, Owned), o);
    } else {
      FillNullTuple(g, st, before, o);
      RunAdded(g, middle, next, st, o);
    }
  }

  /** The slots from `base` on, once the first `i` optional arguments have been stored. */
  ghost predicate OptionalSlots(tuple: seq<Option<string>>, base: nat, optionals: seq<string>, i: nat, o: Oracle)
    requires i <= |optionals|
  {
    forall j :: base <= j < |tuple| ==>
      tuple[j] == if j - base < i && o(New(optionals[j - base])) then Some(optionals[j - base]) else None
  }

  /** The first `i` optional arguments have been moved into the tuple where they were given. */
  ghost predicate FillingOptional(cs: seq<Action>, st: State, start: seq<Option<string>>, base: nat,
                                  optionals: seq<string>, i: nat, o: Oracle)
  {
    && i <= |optionals| && base <= |st.tuple|
    && Settled(cs, st)
    && Distinct(optionals) && PY_SELF !in optionals && PY_ARGS !in optionals
    && (forall k :: i <= k < |optionals| ==> OptionalReady(optionals[k], cs, st, o))
    && (forall v :: v in DecrefVars(cs) ==> v == PY_SELF || v == PY_ARGS)
    && |start| == |st.tuple| && start[..base] == st.tuple[..base]
    && OptionalSlots(st.tuple, base, optionals, i, o)
  }

  lemma FillOptionalStep(g: Gen, st: State, start: seq<Option<string>>, base: nat, optionals: seq<string>, i: nat,
                         o: Oracle)
    returns (code: seq<Instr>)
    requires i < |optionals| && FillingOptional(g.cleanup, st, start, base, optionals, i, o)
    ensures PassOptional(g, optionals[i], base + i).body == g.body + code
    ensures if o(New(optionals[i])) && base + i >= |st.tuple| then Run(code, st, o) == Fault
            else Run(code, st, o).Running? && SameFrame(Run(code, st, o).st, st) &&
                 FillingOptional(PassOptional(g, optionals[i], base + i).cleanup, Run(code, st, o).st, start, base,
                                 optionals, i + 1, o)
  {
    var v, pos := optionals[i], base + i;
    var next := PassOptional(g, v, pos);
    assert OptionalReady(v, g.cleanup, st, o);
    MembersOfCleanup(g.cleanup, v);
    code := [SetItemIfSet(pos, v, false)];
    assert next.body == g.body + code;
    RunOne(code[0], st, o);
    if !o(New(v)) || pos < |st.tuple| {
      var moved := if o(New(v)) then Put(st, v, Moved).(tuple := st.tuple[pos := Some(v)]) else st;
      assert Run(code, st, o) == Running(moved);
      FillOptionalFrame(g, st, moved, start, base, optionals, i, o);
    }
  }

  lemma FillOptionalFrame(g: Gen, st: State, moved: State, start: seq<Option<string>>, base: nat,
                          optionals: seq<string>, i: nat, o: Oracle)
    requires i < |optionals| && FillingOptional(g.cleanup, st, start, base, optionals, i, o)
    requires o(New(optionals[i])) ==> base + i < |st.tuple|
    requires moved == if o(New(optionals[i]))
                      then Put(st, optionals[i], Moved).(tuple := st.tuple[base + i := Some(optionals[i])]) else st
    ensures SameFrame(moved, st)
    ensures FillingOptional(PassOptional(g, optionals[i], base + i).cleanup, moved, start, base, optionals, i + 1, o)
  {
    var v := optionals[i];
    var next := PassOptional(g, v, base + i);
    assert OptionalReady(v, g.cleanup, st, o);
    MembersOfCleanup(g.cleanup, v);
    assert !o(New(v)) ==> st.vars[v := Null] == st.vars;
    SettledAfterRemove(g.cleanup, st, Xdecref(v), moved);
    assert forall w, s :: w != v ==> (Holds(moved, w, s) <==> Holds(st, w, s));
    forall k | i + 1 <= k < |optionals|
      ensures OptionalReady(optionals[k], next.cleanup, moved, o)
    {
      assert optionals[k] != v && OptionalReady(optionals[k], g.cleanup, st, o);
    }
    assert start[..base] == moved.tuple[..base];
  }

  /** Does one of the first `i` optional arguments land past the end of the tuple? */
  predicate Overflows(size: nat, base: nat, optionals: seq<string>, i: nat, o: Oracle)
    requires i <= |optionals|
  {
    i > 0 && (Overflows(size, base, optionals, i - 1, o) || (o(New(optionals[i - 1])) && base + i - 1 >= size))
  }

  lemma {:induction false} OverflowsSome(size: nat, base: nat, optionals: seq<string>, i: nat, o: Oracle)
    requires i <= |optionals|
    ensures Overflows(size, base, optionals, i, o) <==>
            exists k :: 0 <= k < i && o(New(optionals[k])) && base + k >= size
  {
    if i > 0 {
      OverflowsSome(size, base, optionals, i - 1, o);
    }
  }

  ghost predicate OptionalsStored(cs: seq<Action>, out: Outcome, st: State, start: seq<Option<string>>, base: nat,
                                  optionals: seq<string>, i: nat, o: Oracle)
    requires i <= |optionals|
  {
    if Overflows(|st.tuple|, base, optionals, i, o) then out == Fault
    else out.Running? && SameFrame(out.st, st) && FillingOptional(cs, out.st, start, base, optionals, i, o)
  }

  lemma StoreNextOptional(g: Gen, next: Gen, out: Outcome, st: State, start: seq<Option<string>>, base: nat,
                          optionals: seq<string>, i: nat, o: Oracle)
    requires i < |optionals| && OptionalsStored(g.cleanup, out, st, start, base, optionals, i, o)
    requires next == PassOptional(g, optionals[i], base + i)
    ensures g.body <= next.body
    ensures OptionalsStored(next.cleanup, Then(out, Added(g, next), o), st, start, base, optionals, i + 1, o)
  {
    if !Overflows(|st.tuple|, base, optionals, i, o) {
      var code := FillOptionalStep(g, out.st, start, base, optionals, i, o);
      assert code == Added(g, next);
    }
  }

  lemma PassNextOptional(g: Gen, optionals: seq<string>, base: nat, i: nat)
    requires i < |optionals|
    ensures PassAllOptional(g, optionals[..i + 1], base) ==
            PassOptional(PassAllOptional(g, optionals[..i], base), optionals[i], base + i)
  {
    NextPrefix(optionals, i);
  }

  lemma FillOptionalNext(g: Gen, before: Gen, next: Gen, st: State, start: seq<Option<string>>, base: nat,
                         optionals: seq<string>, i: nat, o: Oracle)
    requires i < |optionals| && g.body <= before.body && next == PassOptional(before, optionals[i], base + i)
    requires OptionalsStored(before.cleanup, Run(Added(g, before), st, o), st, start, base, optionals, i, o)
    ensures g.body <= next.body
    ensures OptionalsStored(next.cleanup, Run(Added(g, next), st, o), st, start, base, optionals, i + 1, o)
  {
    StoreNextOptional(before, next, Run(Added(g, before), st, o), st, start, base, optionals, i, o);
    RunAdded(g, before, next, st, o);
  }

  lemma {:induction false} FillOptionalAll(g: Gen, st: State, start: seq<Option<string>>, base: nat,
                                           optionals: seq<string>, i: nat, o: Oracle)
    requires i <= |optionals| && FillingOptional(g.cleanup, st, start, base, optionals, 0, o)
    ensures var next := PassAllOptional(g, optionals[..i], base);
            && g.body <= next.body
            && OptionalsStored(next.cleanup, Run(Added(g, next), st, o), st, start, base, optionals, i, o)
  {
    if i > 0 {
      FillOptionalAll(g, st, start, base, optionals, i - 1, o);
      PassNextOptional(g, optionals, base, i - 1);
      var before, next := PassAllOptional(g, optionals[..i - 1], base), PassAllOptional(g, optionals[..i], base);
      FillOptionalNext(g, before, next, st, start, base, optionals, i - 1, o);
    } else {
      assert optionals[..0] == [];
      assert Added(g, g) == [];
    }
  }

  // ---------- which optional arguments fit ----------

  lemma {:induction false} CountIsGiven(vs: seq<string>, cs: seq<Action>, st: State, o: Oracle)
    requires forall v :: v in vs ==> OptionalReady(v, cs, st, o)
    ensures CountSet(vs, st) == |Given(vs, o)|
  {
    if vs != [] {
      assert OptionalReady(vs[0], cs, st, o);
      CountIsGiven(vs[1..], cs, st, o);
    }
  }

  lemma {:induction false} LastGiven(vs: seq<string>, o: Oracle)
    requires Given(vs, o) != []
    ensures exists j :: 0 <= j < |vs| && o(New(vs[j])) && j + 1 >= |Given(vs, o)|
  {
    if Given(vs[1..], o) == [] {
      assert o(New(vs[0]));
    } else {
      LastGiven(vs[1..], o);
      var j :| 0 <= j < |vs[1..]| && o(New(vs[1..][j])) && j + 1 >= |Given(vs[1..], o)|;
      assert o(New(vs[j + 1]));
    }
  }

  /** The tuple has room for the given optional arguments only, yet each is stored at the position it
      has among all of them: an argument after a missing one does not fit. */
  lemma {:induction false} GapsOverflow(vs: seq<string>, o: Oracle)
    ensures OptionalGap(vs, o) <==> exists k :: 0 <= k < |vs| && o(New(vs[k])) && k >= |Given(vs, o)|
    ensures !OptionalGap(vs, o) ==> Given(vs, o) == vs[..|Given(vs, o)|]
    ensures !OptionalGap(vs, o) ==> forall k :: 0 <= k < |vs| ==> (o(New(vs[k])) <==> k < |Given(vs, o)|)
  {
    if vs != [] {
      var ws := vs[1..];
      assert vs == [vs[0]] + ws;
      GapsOverflow(ws, o);
      if o(New(vs[0])) {
        GapAfterGiven(vs[0], ws, o);
      } else if Given(ws, o) == [] {
        NoneGiven(ws, o);
        NoneGiven(vs, o);
      } else {
        LastGiven(ws, o);
        var j :| 0 <= j < |ws| && o(New(ws[j])) && j + 1 >= |Given(ws, o)|;
        assert vs[j + 1] == ws[j] && o(New(vs[j + 1])) && !o(New(vs[0]));
      }
    }
  }

  /** Putting a given argument in front shifts everything by one. */
  lemma GapAfterGiven(v: string, ws: seq<string>, o: Oracle)
    requires o(New(v)) && (OptionalGap(ws, o) <==> exists k :: 0 <= k < |ws| && o(New(ws[k])) && k >= |Given(ws, o)|)
    requires !OptionalGap(ws, o) ==> Given(ws, o) == ws[..|Given(ws, o)|]
    requires !OptionalGap(ws, o) ==> forall k :: 0 <= k < |ws| ==> (o(New(ws[k])) <==> k < |Given(ws, o)|)
    ensures var vs := [v] + ws;
            && |Given(vs, o)| == |Given(ws, o)| + 1
            && (OptionalGap(vs, o) <==> exists k :: 0 <= k < |vs| && o(New(vs[k])) && k >= |Given(vs, o)|)
            && (!OptionalGap(vs, o) ==> Given(vs, o) == vs[..|Given(vs, o)|])
            && (!OptionalGap(vs, o) ==> forall k :: 0 <= k < |vs| ==> (o(New(vs[k])) <==> k < |Given(vs, o)|))
  {
    var vs := [v] + ws;
    assert vs[1..] == ws;
    assert Given(vs, o) == [v] + Given(ws, o);
    if OptionalGap(ws, o) {
      var i, j :| 0 <= i < j < |ws| && !o(New(ws[i])) && o(New(ws[j]));
      assert !o(New(vs[i + 1])) && o(New(vs[j + 1]));
      var k :| 0 <= k < |ws| && o(New(ws[k])) && k >= |Given(ws, o)|;
      assert o(New(vs[k + 1])) && k + 1 >= |Given(vs, o)|;
    } else {
      forall k | 1 <= k < |vs|
        ensures o(New(vs[k])) <==> k < |Given(vs, o)|
      {
        assert vs[k] == ws[k - 1];
      }
      assert !OptionalGap(vs, o) by {
        assert forall k :: 0 <= k < |vs| ==> (o(New(vs[k])) <==> k < |Given(vs, o)|);
      }
      assert [v] + ws[..|Given(ws, o)|] == vs[..|Given(ws, o)| + 1];
    }
  }

  lemma {:induction false} NoneGiven(vs: seq<string>, o: Oracle)
    ensures Given(vs, o) == [] <==> forall k :: 0 <= k < |vs| ==> !o(New(vs[k]))
  {
    if vs != [] {
      NoneGiven(vs[1..], o);
      assert forall k :: 0 <= k < |vs[1..]| ==> vs[1..][k] == vs[k + 1];
      assert forall k :: 1 <= k < |vs| ==> vs[k] == vs[1..][k - 1];
    }
  }

  // ---------- the whole tuple phase ----------

  ghost predicate Passed(cs: seq<Action>, st: State, hasTuple: bool, hasNull: bool, items: seq<string>) {
    && Settled(cs, st) && !NullDecref(cs, st)
    && Holds(st, PY_SELF, Owned) && (hasTuple ==> Holds(st, PY_ARGS, Owned))
    && PY_METHOD !in st.vars && PY_RETVAL !in st.vars
    && !st.retval && st.called == None
    && if hasNull then exists i :: 0 <= i < |st.tuple| && st.tuple[i].None?
       else (forall i :: 0 <= i < |st.tuple| ==> st.tuple[i].Some?) && Items(st.tuple) == items
  }

  lemma {:induction false} Shape(ret: ReturnType, ps: seq<Parameter>)
    ensures var g := ConvertAll(ret, ps);
            g.args == FixedArgs(ps) && g.optionals == OptionalArgs(ps) && |g.parse| == Outputs(ps) && g.post == []
  {
    if ps != [] {
      Shape(ret, ps[..|ps| - 1]);
      ShapeStep(ConvertAll(ret, ps[..|ps| - 1]), ret, ps[|ps| - 1]);
    }
  }

  lemma ShapeStep(g: Gen, ret: ReturnType, p: Parameter)
    ensures var next := ConvertC2py(g, ret, p);
            && next.args == (if Checked(p) || Unchecked(p) || p.BooleanParam? then g.args + [PyVar(p.name)] else g.args)
            && next.optionals == (if IsOptional(p) then g.optionals + [PyVar(p.name)] else g.optionals)
            && |next.parse| == |g.parse| + (if IsOutput(p) then 1 else 0)
            && next.post == g.post
  {
    ConvertKinds(g, ret, p);
  }

  lemma NullsAreNullArguments(g: Gen, st: State, ps: seq<Parameter>, o: Oracle)
    requires ConvertedAll(g, st, ps, o)
    ensures (exists v :: v in g.args && Holds(st, v, Null)) <==> NullArgument(ps, o)
  {
    forall v | v in g.args && Holds(st, v, Null)
      ensures NullDecref(g.cleanup, st)
    {
      assert FixedReady(v, g.cleanup, st);
    }
  }

  lemma ReadyToFill(g: Gen, ret: ReturnType, st: State, ps: seq<Parameter>, o: Oracle, built: State)
    requires DistinctNames(ps) && ConvertedAll(g, st, ps, o) && HasTuple(g)
    requires var argc := |g.args| + |Given(g.optionals, o)|;
             built == Put(st.(tuple := seq(argc, _ => None)), PY_ARGS, Owned)
    ensures Filling(BuildTuple(g, ret).cleanup, built, g.args, g.optionals, 0, Slots(st, g.args), o)
  {
    var cs := BuildTuple(g, ret).cleanup;
    PyMethodUnused(g, st, ps, o);
    SettledAfterAcquire(g.cleanup, st, Decref(PY_ARGS), Owned);
    assert cs == [Decref(PY_ARGS)] + g.cleanup && cs[1..] == g.cleanup;
    assert Put(st, PY_ARGS, Owned).vars == built.vars;
    ArgumentsStayReady(g, st, built, o);
    assert g.args[0..] == g.args;
  }

  lemma ArgumentsStayReady(g: Gen, st: State, built: State, o: Oracle)
    requires Pending(g.args, g.optionals, g.cleanup, st, o) && Holds(st, PY_SELF, Owned) && PY_ARGS !in st.vars
    requires built.vars == st.vars[PY_ARGS := Owned]
    ensures PY_ARGS !in g.args + g.optionals
    ensures forall w, s :: w != PY_ARGS ==> (Holds(built, w, s) <==> Holds(st, w, s))
    ensures forall v :: v in g.args ==> FixedReady(v, [Decref(PY_ARGS)] + g.cleanup, built)
    ensures forall v :: v in g.optionals ==> OptionalReady(v, [Decref(PY_ARGS)] + g.cleanup, built, o)
  {
    assert ([Decref(PY_ARGS)] + g.cleanup)[1..] == g.cleanup;
    assert forall v :: v in g.args ==> FixedReady(v, g.cleanup, st);
    assert forall v :: v in g.optionals ==> OptionalReady(v, g.cleanup, st, o);
    assert forall v :: v in g.args + g.optionals ==> v in st.vars;
  }

  ghost predicate TupleHolds(tuple: seq<Option<string>>, args: seq<string>, given: seq<string>, nulls: seq<bool>) {
    && |nulls| == |args| && |tuple| == |args| + |given|
    && (forall k :: 0 <= k < |args| ==> tuple[k] == if nulls[k] then None else Some(args[k]))
    && (forall k :: |args| <= k < |tuple| ==> tuple[k] == Some(given[k - |args|]))
  }

  ghost predicate FixedStored(tuple: seq<Option<string>>, args: seq<string>, nulls: seq<bool>) {
    && |nulls| == |args| <= |tuple|
    && forall k :: 0 <= k < |args| ==> tuple[k] == if nulls[k] then None else Some(args[k])
  }

  ghost predicate Filled(cs: seq<Action>, out: Outcome, built: State, args: seq<string>, optionals: seq<string>,
                         nulls: seq<bool>, o: Oracle)
  {
    if OptionalGap(optionals, o) then out == Fault
    else
      && out.Running? && SameFrame(out.st, built) && Settled(cs, out.st)
      && (forall v :: v in DecrefVars(cs) ==> v == PY_SELF || v == PY_ARGS)
      && TupleHolds(out.st.tuple, args, Given(optionals, o), nulls)
  }

  lemma FillAllocated(g: Gen, built: State, args: seq<string>, optionals: seq<string>, nulls: seq<bool>, o: Oracle)
    requires Filling(g.cleanup, built, args, optionals, 0, nulls, o)
    requires |built.tuple| == |args| + |Given(optionals, o)|
    ensures var next := PassAllOptional(PassAllFixed(g, args), optionals, |args|);
            && g.body <= next.body
            && Filled(next.cleanup, Run(Added(g, next), built, o), built, args, optionals, nulls, o)
  {
    var middle := PassAllFixed(g, args);
    FillFixed(g, built, args, optionals, nulls, o);
    FillRest(middle, Run(Added(g, middle), built, o).st, built, args, optionals, nulls, o);
    RunAdded(g, middle, PassAllOptional(middle, optionals, |args|), built, o);
  }

  lemma FillRest(middle: Gen, half: State, built: State, args: seq<string>, optionals: seq<string>, nulls: seq<bool>,
                 o: Oracle)
    requires FillingOptional(middle.cleanup, half, half.tuple, |args|, optionals, 0, o)
    requires SameFrame(half, built) && |half.tuple| == |args| + |Given(optionals, o)| &&
             FixedStored(half.tuple, args, nulls)
    ensures var next := PassAllOptional(middle, optionals, |args|);
            Filled(next.cleanup, Run(Added(middle, next), half, o), built, args, optionals, nulls, o)
  {
    var next := PassAllOptional(middle, optionals, |args|);
    Whole(optionals);
    FillOptionalAll(middle, half, half.tuple, |args|, optionals, |optionals|, o);
    StoredIsFilled(next.cleanup, Run(Added(middle, next), half, o), half, built, args, optionals, nulls, o);
  }

  /** The fixed arguments are in the tuple, and the optional ones may follow. */
  lemma FillFixed(g: Gen, built: State, args: seq<string>, optionals: seq<string>, nulls: seq<bool>, o: Oracle)
    requires Filling(g.cleanup, built, args, optionals, 0, nulls, o)
    requires |built.tuple| == |args| + |Given(optionals, o)|
    ensures var middle := PassAllFixed(g, args);
            && g.body <= middle.body
            && var out := Run(Added(g, middle), built, o);
            && out.Running? && SameFrame(out.st, built)
            && FillingOptional(middle.cleanup, out.st, out.st.tuple, |args|, optionals, 0, o)
            && |out.st.tuple| == |built.tuple| && FixedStored(out.st.tuple, args, nulls)
  {
    Whole(args);
    FillFixedAll(g, built, args, optionals, |args|, nulls, o);
    var middle := PassAllFixed(g, args);
    StartOptional(middle.cleanup, Run(Added(g, middle), built, o).st, args, optionals, nulls, o);
  }

  lemma StoredIsFilled(cs: seq<Action>, out: Outcome, half: State, built: State, args: seq<string>,
                       optionals: seq<string>, nulls: seq<bool>, o: Oracle)
    requires OptionalsStored(cs, out, half, half.tuple, |args|, optionals, |optionals|, o)
    requires SameFrame(half, built) && |half.tuple| == |args| + |Given(optionals, o)| &&
             FixedStored(half.tuple, args, nulls)
    ensures Filled(cs, out, built, args, optionals, nulls, o)
  {
    GapsOverflow(optionals, o);
    OverflowsSome(|half.tuple|, |args|, optionals, |optionals|, o);
    if !OptionalGap(optionals, o) {
      TupleIsFull(half.tuple, out.st.tuple, args, optionals, nulls, o);
    }
  }

  lemma TupleIsFull(half: seq<Option<string>>, full: seq<Option<string>>, args: seq<string>, optionals: seq<string>,
                    nulls: seq<bool>, o: Oracle)
    requires |half| == |full| == |args| + |Given(optionals, o)| && !OptionalGap(optionals, o) &&
             FixedStored(half, args, nulls)
    requires half[..|args|] == full[..|args|] && OptionalSlots(full, |args|, optionals, |optionals|, o)
    ensures TupleHolds(full, args, Given(optionals, o), nulls)
  {
    GapsOverflow(optionals, o);
    forall k | 0 <= k < |args|
      ensures full[k] == half[k]
    {
      assert full[..|args|][k] == half[..|args|][k];
    }
  }

  lemma StartOptional(cs: seq<Action>, st: State, args: seq<string>, optionals: seq<string>, nulls: seq<bool>,
                      o: Oracle)
    requires Filling(cs, st, args, optionals, |args|, nulls, o)
    ensures FillingOptional(cs, st, st.tuple, |args|, optionals, 0, o)
  {
    Whole(args);
    forall i, j | 0 <= i < j < |optionals|
      ensures optionals[i] != optionals[j]
    {
      assert (args + optionals)[|args| + i] != (args + optionals)[|args| + j];
    }
  }

  lemma TupleContents(tuple: seq<Option<string>>, args: seq<string>, given: seq<string>, nulls: seq<bool>)
    requires TupleHolds(tuple, args, given, nulls)
    ensures if exists k :: 0 <= k < |nulls| && nulls[k] then exists i :: 0 <= i < |tuple| && tuple[i].None?
            else (forall i :: 0 <= i < |tuple| ==> tuple[i].Some?) && Items(tuple) == args + given
  {
    if k :| 0 <= k < |nulls| && nulls[k] {
      assert tuple[k].None?;
    }
  }

  lemma SlotsShowNulls(st: State, vs: seq<string>)
    ensures (exists v :: v in vs && Holds(st, v, Null)) <==> exists k :: 0 <= k < |Slots(st, vs)| && Slots(st, vs)[k]
  {
    if v :| v in vs && Holds(st, v, Null) {
      var k :| 0 <= k < |vs| && vs[k] == v;
      assert Slots(st, vs)[k];
    }
  }

  lemma TuplePhase(ret: ReturnType, ps: seq<Parameter>, o: Oracle, g: Gen, st: State)
    requires DistinctNames(ps) && g == ConvertAll(ret, ps) && ConvertedAll(g, st, ps, o)
    ensures var next := PassArguments(g, ret);
            && g.body <= next.body
            && var out := Run(Added(g, next), st, o);
            if TupleFaults(ps, o) then out == Fault
            else out.Running? && Passed(next.cleanup, out.st, HasTuple(g), NullArgument(ps, o), CallArgs(ps, o))
  {
    Shape(ret, ps);
    if HasTuple(g) {
      var success := CallArgs(ps, o) == [] || o(New(PY_ARGS));
      var tuple := if success then seq(|CallArgs(ps, o)|, _ => None) else [];
      var built := Put(st.(tuple := tuple), PY_ARGS, if success then Owned else Null);
      TupleBuilt(ret, ps, o, g, st, built, success);
      RunAdded(g, BuildTuple(g, ret), PassArguments(g, ret), st, o);
      if success {
        AllocatedTuple(ret, ps, o, g, st, built);
      } else {
        MissingTuple(ret, ps, o, g, st, built);
      }
    } else {
      NoTuple(ret, ps, o, g, st);
    }
  }

  lemma NoTuple(ret: ReturnType, ps: seq<Parameter>, o: Oracle, g: Gen, st: State)
    requires DistinctNames(ps) && g == ConvertAll(ret, ps) && ConvertedAll(g, st, ps, o) && !HasTuple(g)
    ensures Run(Added(g, PassArguments(g, ret)), st, o) == Running(st) && !TupleFaults(ps, o)
    ensures Passed(PassArguments(g, ret).cleanup, st, false, NullArgument(ps, o), CallArgs(ps, o))
  {
    Shape(ret, ps);
    PyMethodUnused(g, st, ps, o);
    NullsAreNullArguments(g, st, ps, o);
    assert Added(g, PassArguments(g, ret)) == [];
  }

  lemma TupleInstr(g: Gen, ret: ReturnType)
    requires HasTuple(g)
    ensures g.body <= BuildTuple(g, ret).body <= PassArguments(g, ret).body
    ensures Added(g, BuildTuple(g, ret)) == [NewTuple(PY_ARGS, |g.args|, g.optionals)]
  {
  }

  lemma TupleRuns(st: State, fixed: nat, optionals: seq<string>, argc: nat, success: bool, o: Oracle)
    requires st.gil && PY_ARGS !in st.vars && CountSet(optionals, st) == argc - fixed >= 0
    requires success <==> argc == 0 || o(New(PY_ARGS))
    ensures Exec(NewTuple(PY_ARGS, fixed, optionals), st, o) ==
            Running(Put(st.(tuple := if success then seq(argc, _ => None) else []), PY_ARGS,
                        if success then Owned else Null))
  {
  }

  lemma TupleBuilt(ret: ReturnType, ps: seq<Parameter>, o: Oracle, g: Gen, st: State, built: State, success: bool)
    requires DistinctNames(ps) && g == ConvertAll(ret, ps) && ConvertedAll(g, st, ps, o) && HasTuple(g)
    requires success <==> CallArgs(ps, o) == [] || o(New(PY_ARGS))
    requires built == Put(st.(tuple := if success then seq(|CallArgs(ps, o)|, _ => None) else []), PY_ARGS,
                          if success then Owned else Null)
    ensures g.body <= BuildTuple(g, ret).body <= PassArguments(g, ret).body
    ensures Run(Added(g, BuildTuple(g, ret)), st, o) == Running(built)
  {
    Shape(ret, ps);
    PyMethodUnused(g, st, ps, o);
    CountIsGiven(g.optionals, g.cleanup, st, o);
    TupleInstr(g, ret);
    TupleRuns(st, |g.args|, g.optionals, |CallArgs(ps, o)|, success, o);
    RunOne(NewTuple(PY_ARGS, |g.args|, g.optionals), st, o);
  }

  lemma AllocatedTuple(ret: ReturnType, ps: seq<Parameter>, o: Oracle, g: Gen, st: State, built: State)
    requires DistinctNames(ps) && g == ConvertAll(ret, ps) && ConvertedAll(g, st, ps, o) && HasTuple(g)
    requires CallArgs(ps, o) != [] ==> o(New(PY_ARGS))
    requires built == Put(st.(tuple := seq(|CallArgs(ps, o)|, _ => None)), PY_ARGS, Owned)
    ensures var g1, next := BuildTuple(g, ret), PassArguments(g, ret);
            && g1.body <= next.body
            && var out := Run(Added(g1, next), built, o);
            if TupleFaults(ps, o) then out == Fault
            else out.Running? && Passed(next.cleanup, out.st, true, NullArgument(ps, o), CallArgs(ps, o))
  {
    Shape(ret, ps);
    TupleInstr(g, ret);
    var g1, next, nulls := BuildTuple(g, ret), PassArguments(g, ret), Slots(st, g.args);
    ReadyToFill(g, ret, st, ps, o, built);
    FillAllocated(g1, built, g.args, g.optionals, nulls, o);
    BuiltIsFresh(g, st, ps, o, built);
    NullsAreNullArguments(g, st, ps, o);
    SlotsShowNulls(st, g.args);
    FilledIsPassed(next.cleanup, Run(Added(g1, next), built, o), built, g.args, g.optionals, nulls, o);
  }

  lemma BuiltIsFresh(g: Gen, st: State, ps: seq<Parameter>, o: Oracle, built: State)
    requires DistinctNames(ps) && ConvertedAll(g, st, ps, o)
    requires built.vars == st.vars[PY_ARGS := Owned] && built.retval == st.retval && built.called == st.called
    ensures PY_METHOD !in built.vars && PY_RETVAL !in built.vars && !built.retval && built.called == None
    ensures Holds(built, PY_SELF, Owned) && Holds(built, PY_ARGS, Owned)
  {
    PyMethodUnused(g, st, ps, o);
  }

  lemma FilledIsPassed(cs: seq<Action>, out: Outcome, built: State, args: seq<string>, optionals: seq<string>,
                       nulls: seq<bool>, o: Oracle)
    requires Filled(cs, out, built, args, optionals, nulls, o)
    requires PY_METHOD !in built.vars && PY_RETVAL !in built.vars && !built.retval && built.called == None
    requires Holds(built, PY_SELF, Owned) && Holds(built, PY_ARGS, Owned)
    ensures if OptionalGap(optionals, o) then out == Fault
            else
              && out.Running?
              && Passed(cs, out.st, true, exists k :: 0 <= k < |nulls| && nulls[k], args + Given(optionals, o))
  {
    if !OptionalGap(optionals, o) {
      TupleContents(out.st.tuple, args, Given(optionals, o), nulls);
    }
  }

  lemma MissingTuple(ret: ReturnType, ps: seq<Parameter>, o: Oracle, g: Gen, st: State, built: State)
    requires DistinctNames(ps) && g == ConvertAll(ret, ps) && ConvertedAll(g, st, ps, o) && HasTuple(g)
    requires CallArgs(ps, o) != [] && built.vars == st.vars[PY_ARGS := Null] && built.tuple == [] && built.gil
    ensures var g1, next := BuildTuple(g, ret), PassArguments(g, ret);
            g1.body <= next.body && Run(Added(g1, next), built, o) == Fault
  {
    Shape(ret, ps);
    var g1, g3 := BuildTuple(g, ret), PassArguments(g, ret);
    if g.args != [] {
      FillNullTuple(g1, built, g.args, o);
      RunAdded(g1, PassAllFixed(g1, g.args), g3, built, o);
    } else {
      MissingTupleForOptionals(ret, ps, o, g, st, built);
    }
  }

  lemma MissingTupleForOptionals(ret: ReturnType, ps: seq<Parameter>, o: Oracle, g: Gen, st: State, built: State)
    requires DistinctNames(ps) && g == ConvertAll(ret, ps) && ConvertedAll(g, st, ps, o) && HasTuple(g)
    requires CallArgs(ps, o) != [] && built.vars == st.vars[PY_ARGS := Null] && built.tuple == [] && built.gil
    requires g.args == []
    ensures var g1, next := BuildTuple(g, ret), PassArguments(g, ret);
            g1.body <= next.body && Run(Added(g1, next), built, o) == Fault
  {
    Shape(ret, ps);
    assert Given(g.optionals, o) != [];
    MissingTupleReady(ret, ps, o, g, st, built);
    StoreIntoNothing(BuildTuple(g, ret), built, g.optionals, o);
  }

  /** Storing given optional arguments into a tuple without slots. */
  lemma StoreIntoNothing(g: Gen, built: State, optionals: seq<string>, o: Oracle)
    requires FillingOptional(g.cleanup, built, [], 0, optionals, 0, o) && Given(optionals, o) != []
    ensures g.body <= PassAllOptional(g, optionals, 0).body
    ensures Run(Added(g, PassAllOptional(g, optionals, 0)), built, o) == Fault
  {
    var n := |optionals|;
    FillOptionalAll(g, built, [], 0, optionals, n, o);
    Whole(optionals);
    NoneGiven(optionals, o);
    OverflowsSome(0, 0, optionals, n, o);
  }

  lemma MissingTupleReady(ret: ReturnType, ps: seq<Parameter>, o: Oracle, g: Gen, st: State, built: State)
    requires DistinctNames(ps) && ConvertedAll(g, st, ps, o) && HasTuple(g)
    requires built.vars == st.vars[PY_ARGS := Null] && built.tuple == [] && built.gil
    requires g.args == []
    ensures FillingOptional(BuildTuple(g, ret).cleanup, built, [], 0, g.optionals, 0, o)
  {
    var cs := BuildTuple(g, ret).cleanup;
    PyMethodUnused(g, st, ps, o);
    SettledAfterAcquire(g.cleanup, st, Decref(PY_ARGS), Null);
    assert cs == [Decref(PY_ARGS)] + g.cleanup && cs[1..] == g.cleanup;
    assert forall w, s :: Holds(built, w, s) <==> Holds(Put(st, PY_ARGS, Null), w, s);
    Whole(g.optionals);
    forall v | v in g.optionals
      ensures v != PY_ARGS && v != PY_SELF && OptionalReady(v, cs, built, o)
    {
      assert OptionalReady(v, g.cleanup, st, o);
    }
    assert Distinct(g.optionals);
  }
}
