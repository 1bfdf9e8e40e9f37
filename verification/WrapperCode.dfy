/**
 The C code that the reverse-wrapper generator emits, reduced to the statements that touch
 Python references, the GIL and the C variable `retval`, together with what each statement does.

 Every C variable of type `PyObject *` is in one `Slot`.  A reference is acquired once, and must
 then be released or moved (stolen) exactly once; any statement that breaks this rule, hands NULL to
 the interpreter, writes past the argument tuple or works without the GIL is a `Fault`.
 */
module WrapperCode {
  import opened Wrappers

  /** A place whose result is decided by the environment: constructors, calls and checks. */
  datatype Site =
    | New(v: string)
    | Repack
    | TypeTest
    | Parse
    | GErrorTest(name: string)

  /** One execution: does the operation at this site succeed?  Emitted code is straight-line, so
      each site is reached at most once. */
  type Oracle = Site -> bool

  datatype Slot = Null | Borrowed | Owned | Moved | Released

  datatype Action = Decref(v: string) | Xdecref(v: string) | ReleaseGil

  datatype Guard = IsNull(v: string) | Fails(site: Site)

  /** What an error exit returns: nothing, a constant expression, or the variable `retval`. */
  datatype ExitValue = NoValue | Constant | RetvalVariable

  datatype Instr =
    | EnsureGil
    | Acquire(v: string)
    | Borrow(v: string)
    | NewTuple(v: string, fixed: nat, optionals: seq<string>)
    | Incref(v: string)
    | SetItem(pos: nat, v: string)
    | SetItemIfSet(pos: nat, v: string, incref: bool)
    | GetAttr(v: string, target: string)
    | Call(v: string, callee: string, args: Option<string>)
    | PackInTuple(v: string)
    | Read(v: string)
    | StoreRetval
    | Check(guard: Guard, actions: seq<Action>, value: ExitValue)
    | Perform(action: Action)
    | Return(hasValue: bool)

  /** `tuple` holds the argument tuple (an entry is None while its slot is NULL), `called` what the
      Python method was called with, `retval` whether the C variable `retval` has been assigned. */
  datatype State = State(
    vars: map<string, Slot>, tuple: seq<Option<string>>, gil: bool, retval: bool, called: Option<seq<string>>)

  datatype Value = Nothing | ErrorValue | Converted | Indeterminate

  datatype Outcome = Running(st: State) | Returned(st: State, value: Value) | Fault

  const START := State(map[], [], false, false, None)

  predicate Holds(st: State, v: string, slot: Slot) {
    v in st.vars && st.vars[v] == slot
  }

  function Put(st: State, v: string, slot: Slot): State {
    st.(vars := st.vars[v := slot])
  }

  function Acquired(st: State, v: string, success: bool): Outcome {
    // overwriting the only pointer to a reference loses it
    if Holds(st, v, Owned) then Fault else Running(Put(st, v, if success then Owned else Null))
  }

  function Act(action: Action, st: State): Outcome {
    if !st.gil then Fault else
    match action
    case Decref(v) => if Holds(st, v, Owned) then Running(Put(st, v, Released)) else Fault
    case Xdecref(v) =>
      if Holds(st, v, Owned) then Running(Put(st, v, Released))
      else if Holds(st, v, Null) then Running(st)
      else Fault
    case ReleaseGil => Running(st.(gil := false))
  }

  function ActAll(actions: seq<Action>, st: State): Outcome {
    if actions == [] then Running(st) else
    match Act(actions[0], st)
    case Running(next) => ActAll(actions[1..], next)
    case other => other
  }

  function CountSet(vs: seq<string>, st: State): nat {
    if vs == [] then 0 else
    (if Holds(st, vs[0], Owned) then 1 else 0) + CountSet(vs[1..], st)
  }

  /** PyTuple_SET_ITEM: steals the reference in `v` without any check of its own. */
  function Steal(st: State, pos: nat, v: string): Outcome {
    if pos >= |st.tuple| || st.tuple[pos] != None then Fault
    else if Holds(st, v, Owned) then Running(Put(st, v, Moved).(tuple := st.tuple[pos := Some(v)]))
    else if Holds(st, v, Null) then Running(st)
    else Fault
  }

  function TakeReference(st: State, v: string): Outcome {
    if Holds(st, v, Borrowed) then Running(Put(st, v, Owned)) else Fault
  }

  function Items(tuple: seq<Option<string>>): seq<string>
    requires forall i :: 0 <= i < |tuple| ==> tuple[i].Some?
  {
    seq(|tuple|, i requires 0 <= i < |tuple| => tuple[i].value)
  }

  predicate Taken(guard: Guard, st: State, o: Oracle) {
    match guard
    case IsNull(v) => Holds(st, v, Null)
    case Fails(site) => !o(site)
  }

  function ExitWith(value: ExitValue, st: State): Outcome {
    match value
    case NoValue => Returned(st, Nothing)
    case Constant => Returned(st, ErrorValue)
    case RetvalVariable => Returned(st, if st.retval then Converted else Indeterminate)
  }

  function Exec(instr: Instr, st: State, o: Oracle): Outcome {
    if !st.gil && !instr.EnsureGil? && !instr.Return? then Fault else
    match instr
    case EnsureGil => if st.gil then Fault else Running(st.(gil := true))
    case Acquire(v) => Acquired(st, v, o(New(v)))
    case Borrow(v) => Running(Put(st, v, Borrowed))
    case NewTuple(v, fixed, optionals) =>
      // the empty tuple is a shared object, so only a longer one can fail to be allocated
      var argc := fixed + CountSet(optionals, st);
      var success := argc == 0 || o(New(v));
      Acquired(st.(tuple := if success then seq(argc, _ => None) else []), v, success)
    case Incref(v) => TakeReference(st, v)
    case SetItem(pos, v) => Steal(st, pos, v)
    case SetItemIfSet(pos, v, incref) =>
      if Holds(st, v, Null) then Running(st)
      else if !incref then Steal(st, pos, v)
      else (match TakeReference(st, v)
            case Running(next) => Steal(next, pos, v)
            case other => other)
    case GetAttr(v, target) =>
      if Holds(st, target, Owned) then Acquired(st, v, o(New(v))) else Fault
    case Call(v, callee, args) =>
      if !Holds(st, callee, Owned) then Fault
      else if args.Some? && !Holds(st, args.value, Owned) then Fault
      else if exists i :: 0 <= i < |st.tuple| && st.tuple[i].None? then Fault
      else Acquired(st.(called := Some(Items(st.tuple))), v, o(New(v)))
    case PackInTuple(v) =>
      // Py_BuildValue("(N)", v) consumes the reference whether or not it succeeds
      if Holds(st, v, Owned) then Running(Put(st, v, if o(Repack) then Owned else Null)) else Fault
    case Read(v) => if Holds(st, v, Owned) then Running(st) else Fault
    case StoreRetval => Running(st.(retval := true))
    case Check(guard, actions, value) =>
      if !Taken(guard, st, o) then Running(st)
      else (match ActAll(actions, st)
            case Running(next) => ExitWith(value, next)
            case other => other)
    case Perform(action) => Act(action, st)
    case Return(hasValue) => ExitWith(if hasValue then RetvalVariable else NoValue, st)
  }

  function Run(code: seq<Instr>, st: State, o: Oracle): Outcome {
    if code == [] then Running(st) else
    match Exec(code[0], st, o)
    case Running(next) => Run(code[1..], next, o)
    case other => other
  }

  function Then(first: Outcome, rest: seq<Instr>, o: Oracle): Outcome {
    match first
    case Running(next) => Run(rest, next, o)
    case other => other
  }

  lemma RunOne(instr: Instr, st: State, o: Oracle)
    ensures Run([instr], st, o) == Exec(instr, st, o)
  {
    assert [instr][1..] == [];
  }

  lemma {:induction false} RunAppend(a: seq<Instr>, b: seq<Instr>, st: State, o: Oracle)
    ensures Run(a + b, st, o) == Then(Run(a, st, o), b, o)
  {
    if a == [] {
      assert a + b == b;
    } else {
      assert (a + b)[1..] == a[1..] + b;
      var first := Exec(a[0], st, o);
      if first.Running? {
        RunAppend(a[1..], b, first.st, o);
      }
    }
  }

  lemma RunTwo(first: Instr, second: Instr, rest: seq<Instr>, st: State, middle: State, o: Oracle)
    requires Exec(first, st, o) == Running(middle)
    ensures Run([first] + ([second] + rest), st, o) == Then(Exec(second, middle, o), rest, o)
  {
    RunAppend([first], [second] + rest, st, o);
    RunOne(first, st, o);
    RunAppend([second], rest, middle, o);
    RunOne(second, middle, o);
  }

  lemma {:induction false} ActAllAppend(a: seq<Action>, b: seq<Action>, st: State)
    ensures ActAll(a + b, st) ==
            match ActAll(a, st) case Running(next) => ActAll(b, next) case other => other
  {
    if a == [] {
      assert a + b == b;
    } else {
      assert (a + b)[1..] == a[1..] + b;
      var first := Act(a[0], st);
      if first.Running? {
        ActAllAppend(a[1..], b, first.st);
      }
    }
  }

  /** The emitted function ended properly: every reference acquired has been released or moved. */
  ghost predicate Clean(outcome: Outcome) {
    && outcome.Returned?
    && !outcome.st.gil
    && forall v :: !Holds(outcome.st, v, Owned)
  }
}
