/**
 The generator of reverse wrappers: C functions that convert their parameters, call a Python method
 and convert its result back (codegen/reversewrapper.py).

 `Program` says which statements are emitted.  `Generator` is the generator itself, whose methods
 append to the code sinks and edit the list of pending cleanup actions in place.
 */
module ReverseWrapper {
  import opened Wrappers
  import opened WrapperCode

  const PY_SELF := "py_self"
  const PY_ARGS := "py_args"
  const PY_METHOD := "py_method"
  const PY_RETVAL := "py_retval"

  function PyVar(name: string): string {
    "py_" + name
  }

  datatype Parameter =
    | StringParam(name: string, optional: bool, nullok: bool)
    | GObjectParam(name: string)
    | IntParam(name: string)
    | IntPtrParam(name: string, inout: bool)
    | GEnumParam(name: string)
    | GFlagsParam(name: string)
    | GtkTreePathParam(name: string)
    | BooleanParam(name: string)
    | DoubleParam(name: string)
    | DoublePtrParam(name: string)
    | GBoxedParam(name: string)
    | GdkRectanglePtrParam(name: string)
    | GErrorParam(name: string)

  /** GBoxedReturn returns the C variable on error; its subclasses build a fresh value instead. */
  datatype ReturnType =
    | VoidReturn
    | StringReturn
    | GObjectReturn(optional: bool)
    | IntReturn
    | GEnumReturn
    | GFlagsReturn
    | GtkTreePathReturn
    | BooleanReturn
    | DoubleReturn
    | GBoxedReturn
    | GBoxedReturnWithDefault

  datatype ParseItem = ParseItem(format: string, target: string)

  datatype Sink = Body | CheckException | PostReturn

  /** The state of one ReverseWrapper while it generates. */
  datatype Gen = Gen(
    body: seq<Instr>, checks: seq<Instr>, post: seq<Instr>, cleanup: seq<Action>,
    args: seq<string>, optionals: seq<string>, parse: seq<ParseItem>)

  const EMPTY := Gen([], [], [], [], [], [], [])

  function ErrorReturn(ret: ReturnType): ExitValue {
    match ret
    case VoidReturn => NoValue
    case GBoxedReturn => RetvalVariable
    case _ => Constant
  }

  function Emit(g: Gen, sink: Sink, code: seq<Instr>): Gen {
    match sink
    case Body => g.(body := g.body + code)
    case CheckException => g.(checks := g.checks + code)
    case PostReturn => g.(post := g.post + code)
  }

  function WriteCode(g: Gen, ret: ReturnType, code: seq<Instr>, cleanup: Option<Action>,
                     failure: Option<Guard>, sink: Sink): (next: Gen)
    ensures next.args == g.args && next.optionals == g.optionals && next.parse == g.parse
    ensures !sink.PostReturn? ==> next.post == g.post
    ensures g.body <= next.body
  {
    var exit := if failure.Some? then [Check(failure.value, g.cleanup, ErrorReturn(ret))] else [];
    var written := Emit(g, sink, code + exit);
    if cleanup.Some? then written.(cleanup := [cleanup.value] + g.cleanup) else written
  }

  function AddPyargv(g: Gen, v: string): Gen {
    g.(args := g.args + [v])
  }

  function AddParse(g: Gen, format: string, target: string): Gen {
    g.(parse := g.parse + [ParseItem(format, target)])
  }

  function ConvertNew(g: Gen, ret: ReturnType, v: string, checked: bool): (next: Gen)
    ensures next.args == g.args + [v] && next.optionals == g.optionals && next.parse == g.parse && next.post == g.post
    ensures g.body <= next.body
  {
    AddPyargv(WriteCode(g, ret, [Acquire(v)], Some(Decref(v)), if checked then Some(IsNull(v)) else None, Body), v)
  }

  function ConvertC2py(g: Gen, ret: ReturnType, p: Parameter): Gen {
    var v := PyVar(p.name);
    match p
    case StringParam(_, optional, nullok) =>
      if optional then
        var written := WriteCode(g, ret, [Acquire(v)], Some(Xdecref(v)), None, Body);
        written.(optionals := g.optionals + [v])
      else ConvertNew(g, ret, v, !nullok)
    case IntPtrParam(name, inout) =>
      AddParse(if inout then ConvertNew(g, ret, v, false) else g, "i", name)
    case DoublePtrParam(name) => AddParse(g, "d", name)
    case BooleanParam(_) => AddPyargv(WriteCode(g, ret, [Borrow(v)], None, None, Body), v)
    case GErrorParam(name) => WriteCode(g, ret, [], None, Some(Fails(GErrorTest(name))), CheckException)
    case GEnumParam(_) => ConvertNew(g, ret, v, true)
    case GFlagsParam(_) => ConvertNew(g, ret, v, true)
    case GtkTreePathParam(_) => ConvertNew(g, ret, v, true)
    case GObjectParam(_) => ConvertNew(g, ret, v, false)
    case IntParam(_) => ConvertNew(g, ret, v, false)
    case DoubleParam(_) => ConvertNew(g, ret, v, false)
    case GBoxedParam(_) => ConvertNew(g, ret, v, false)
    case GdkRectanglePtrParam(_) => ConvertNew(g, ret, v, false)
  }

  /** The GIL, then the method parameter `self` that Wrapper.write_virtuals puts first. */
  function Prologue(ret: ReturnType): Gen {
    var g := WriteCode(EMPTY, ret, [EnsureGil], Some(ReleaseGil), None, Body);
    WriteCode(g, ret, [Acquire(PY_SELF)], Some(Decref(PY_SELF)), Some(IsNull(PY_SELF)), Body)
  }

  function ConvertAll(ret: ReturnType, ps: seq<Parameter>): Gen {
    if ps == [] then Prologue(ret) else
    ConvertC2py(ConvertAll(ret, ps[..|ps| - 1]), ret, ps[|ps| - 1])
  }

  /** list.remove: the first occurrence goes. */
  function Remove(actions: seq<Action>, action: Action): seq<Action> {
    if actions == [] then []
    else if actions[0] == action then actions[1..]
    else [actions[0]] + Remove(actions[1..], action)
  }

  function PassFixed(g: Gen, v: string, pos: nat): Gen {
    if Decref(v) in g.cleanup then
      g.(cleanup := Remove(g.cleanup, Decref(v)), body := g.body + [SetItem(pos, v)])
    else g.(body := g.body + [Incref(v), SetItem(pos, v)])
  }

  function PassOptional(g: Gen, v: string, pos: nat): Gen {
    if Xdecref(v) in g.cleanup then
      g.(cleanup := Remove(g.cleanup, Xdecref(v)), body := g.body + [SetItemIfSet(pos, v, false)])
    else g.(body := g.body + [SetItemIfSet(pos, v, true)])
  }

  function PassAllFixed(g: Gen, vs: seq<string>): (filled: Gen)
    ensures filled.args == g.args && filled.optionals == g.optionals && g.body <= filled.body
    ensures filled.parse == g.parse && filled.checks == g.checks && filled.post == g.post
  {
    if vs == [] then g else PassFixed(PassAllFixed(g, vs[..|vs| - 1]), vs[|vs| - 1], |vs| - 1)
  }

  function PassAllOptional(g: Gen, vs: seq<string>, base: nat): (filled: Gen)
    ensures filled.args == g.args && filled.optionals == g.optionals && g.body <= filled.body
    ensures filled.parse == g.parse && filled.checks == g.checks && filled.post == g.post
  {
    if vs == [] then g else
    PassOptional(PassAllOptional(g, vs[..|vs| - 1], base), vs[|vs| - 1], base + |vs| - 1)
  }

  predicate HasTuple(g: Gen) {
    g.args != [] || g.optionals != []
  }

  function BuildTuple(g: Gen, ret: ReturnType): Gen {
    if HasTuple(g) then
      WriteCode(g, ret, [NewTuple(PY_ARGS, |g.args|, g.optionals)], Some(Decref(PY_ARGS)), None, Body)
    else g
  }

  function PassArguments(g: Gen, ret: ReturnType): Gen {
    PassAllOptional(PassAllFixed(BuildTuple(g, ret), g.args), g.optionals, |g.args|)
  }

  function FlushChecks(g: Gen): Gen {
    g.(body := g.body + g.checks, checks := [])
  }

  function CallMethod(g: Gen, ret: ReturnType): Gen {
    var args := if HasTuple(g) then Some(PY_ARGS) else None;
    var g1 := WriteCode(g, ret, [GetAttr(PY_METHOD, PY_SELF)], Some(Decref(PY_METHOD)), Some(IsNull(PY_METHOD)), Body);
    var g2 := WriteCode(g1, ret, [Call(PY_RETVAL, PY_METHOD, args)], Some(Xdecref(PY_RETVAL)), None, Body);
    WriteCode(FlushChecks(g2), ret, [], None, Some(IsNull(PY_RETVAL)), Body)
  }

  function PrependParse(g: Gen, format: string, target: string): Gen {
    g.(parse := [ParseItem(format, target)] + g.parse)
  }

  function WriteConversion(g: Gen, ret: ReturnType): Gen {
    match ret
    case VoidReturn => PrependParse(g, "", "")
    case StringReturn => WriteCode(PrependParse(g, "s", "&retval"), ret, [Read(PY_RETVAL), StoreRetval], None, None,
                                   PostReturn)
    case IntReturn => PrependParse(g, "i", "&retval")
    case DoubleReturn => PrependParse(g, "d", "&retval")
    case BooleanReturn =>
      WriteCode(PrependParse(g, "O", "&py_main_retval"), ret, [Read(PY_RETVAL), StoreRetval], None, None, PostReturn)
    case GEnumReturn => ConvertChecked(g, ret)
    case GFlagsReturn => ConvertChecked(g, ret)
    case GtkTreePathReturn => ConvertChecked(g, ret)
    case GObjectReturn(_) => ConvertChecked(g, ret)
    case GBoxedReturn => ConvertChecked(g, ret)
    case GBoxedReturnWithDefault => ConvertChecked(g, ret)
  }

  /** A check on py_retval that may fail, then the assignment of retval from it. */
  function ConvertChecked(g: Gen, ret: ReturnType): Gen {
    var tested := WriteCode(g, ret, [Read(PY_RETVAL)], None, Some(Fails(TypeTest)), Body);
    WriteCode(tested, ret, [Read(PY_RETVAL), StoreRetval], None, None, Body)
  }

  function ParseReturn(g: Gen, ret: ReturnType): Gen {
    if g.parse == [ParseItem("", "")] then
      WriteCode(g, ret, [], None, Some(Fails(TypeTest)), Body)
    else
      var packed := if |g.parse| == 1 then WriteCode(g, ret, [PackInTuple(PY_RETVAL)], None, None, Body) else g;
      if |g.parse| > 0 then
        var parsed := WriteCode(packed, ret, [Read(PY_RETVAL)], None, Some(Fails(Parse)), Body);
        if ret.IntReturn? || ret.DoubleReturn? then
          WriteCode(parsed, ret, [StoreRetval], None, None, Body)
        else parsed
      else packed
  }

  function Performs(actions: seq<Action>): seq<Instr> {
    seq(|actions|, i requires 0 <= i < |actions| => Perform(actions[i]))
  }

  function Assemble(g: Gen, ret: ReturnType): seq<Instr> {
    g.body + g.post + Performs(g.cleanup) + [Return(ret != VoidReturn)]
  }

  /** The assertion in generate(): a return type that adds no item to the parsed values cannot be
      combined with output parameters. */
  predicate Cooperates(before: Gen, after: Gen, ret: ReturnType) {
    ret.VoidReturn? || !(|before.parse| == |after.parse| && |after.parse| > 0)
  }

  /** The code generated for a method with these parameters, or None when generate() asserts. */
  function Program(ret: ReturnType, ps: seq<Parameter>): Option<seq<Instr>> {
    var called := CallMethod(PassArguments(ConvertAll(ret, ps), ret), ret);
    var converted := WriteConversion(called, ret);
    if Cooperates(called, converted, ret)
    then Some(Assemble(ParseReturn(converted, ret), ret))
    else None
  }

  /** The generator object. */
  class Generator {
    const ret: ReturnType
    var parameters: seq<Parameter>
    var body: seq<Instr>
    var checkExceptionCode: seq<Instr>
    var postReturnCode: seq<Instr>
    var cleanupActions: seq<Action>
    var pyargvItems: seq<string>
    var pyargvOptionalItems: seq<string>
    var pyretParseItems: seq<ParseItem>

    function Snapshot(): Gen
      reads this
    {
      Gen(body, checkExceptionCode, postReturnCode, cleanupActions, pyargvItems, pyargvOptionalItems, pyretParseItems)
    }

    constructor (ret: ReturnType)
      ensures this.ret == ret && parameters == [] && Snapshot() == EMPTY
    {
      this.ret := ret;
      parameters := [];
      body, checkExceptionCode, postReturnCode, cleanupActions := [], [], [], [];
      pyargvItems, pyargvOptionalItems, pyretParseItems := [], [], [];
    }

    method AddParameter(p: Parameter)
      modifies this`parameters
      ensures parameters == old(parameters) + [p]
    {
      parameters := parameters + [p];
    }

    method Write(code: seq<Instr>, cleanup: Option<Action>, failure: Option<Guard>, sink: Sink)
      modifies this
      ensures parameters == old(parameters)
      ensures Snapshot() == WriteCode(old(Snapshot()), ret, code, cleanup, failure, sink)
    {
      var lines := code;
      if failure.Some? {
        lines := lines + [Check(failure.value, cleanupActions, ErrorReturn(ret))];
      }
      match sink {
        case Body => body := body + lines;
        case CheckException => checkExceptionCode := checkExceptionCode + lines;
        case PostReturn => postReturnCode := postReturnCode + lines;
      }
      assert code + [] == code;
      if cleanup.Some? {
        cleanupActions := [cleanup.value] + cleanupActions;
      }
    }

    method WriteConverted(v: string, checked: bool)
      modifies this
      ensures parameters == old(parameters)
      ensures Snapshot() == ConvertNew(old(Snapshot()), ret, v, checked)
    {
      Write([Acquire(v)], Some(Decref(v)), if checked then Some(IsNull(v)) else None, Body);
      pyargvItems := pyargvItems + [v];
    }

    method Convert(p: Parameter)
      modifies this
      ensures parameters == old(parameters)
      ensures Snapshot() == ConvertC2py(old(Snapshot()), ret, p)
    {
      var v := PyVar(p.name);
      match p {
        case StringParam(_, optional, nullok) =>
          if optional {
            Write([Acquire(v)], Some(Xdecref(v)), None, Body);
            pyargvOptionalItems := pyargvOptionalItems + [v];
          } else {
            WriteConverted(v, !nullok);
          }
        case IntPtrParam(name, inout) =>
          if inout {
            WriteConverted(v, false);
          }
          pyretParseItems := pyretParseItems + [ParseItem("i", name)];
        case DoublePtrParam(name) =>
          pyretParseItems := pyretParseItems + [ParseItem("d", name)];
        case BooleanParam(_) =>
          Write([Borrow(v)], None, None, Body);
          pyargvItems := pyargvItems + [v];
        case GErrorParam(name) =>
          Write([], None, Some(Fails(GErrorTest(name))), CheckException);
        case GEnumParam(_) => WriteConverted(v, true);
        case GFlagsParam(_) => WriteConverted(v, true);
        case GtkTreePathParam(_) => WriteConverted(v, true);
        case GObjectParam(_) => WriteConverted(v, false);
        case IntParam(_) => WriteConverted(v, false);
        case DoubleParam(_) => WriteConverted(v, false);
        case GBoxedParam(_) => WriteConverted(v, false);
        case GdkRectanglePtrParam(_) => WriteConverted(v, false);
      }
    }

    method ConvertParameters()
      requires Snapshot() == EMPTY
      modifies this
      ensures parameters == old(parameters)
      ensures Snapshot() == ConvertAll(ret, parameters)
    {
      Write([EnsureGil], Some(ReleaseGil), None, Body);
      Write([Acquire(PY_SELF)], Some(Decref(PY_SELF)), Some(IsNull(PY_SELF)), Body);
      for i := 0 to |parameters|
        invariant parameters == old(parameters)
        invariant Snapshot() == ConvertAll(ret, parameters[..i])
      {
        assert parameters[..i + 1][..i] == parameters[..i];
        Convert(parameters[i]);
      }
      assert parameters[..|parameters|] == parameters;
    }

    /** Fill the argument tuple, dropping the cleanup of each reference the tuple steals. */
    method FillTuple()
      modifies this
      ensures parameters == old(parameters)
      ensures Snapshot() == PassArguments(old(Snapshot()), ret)
    {
      if pyargvItems != [] || pyargvOptionalItems != [] {
        Write([NewTuple(PY_ARGS, |pyargvItems|, pyargvOptionalItems)], Some(Decref(PY_ARGS)), None, Body);
      }
      FillFixed();
      FillOptional();
    }

    method FillFixed()
      modifies this
      ensures parameters == old(parameters)
      ensures Snapshot() == PassAllFixed(old(Snapshot()), old(pyargvItems))
    {
      ghost var start := Snapshot();
      var items := pyargvItems;
      for pos := 0 to |items|
        invariant parameters == old(parameters)
        invariant Snapshot() == PassAllFixed(start, items[..pos])
      {
        assert items[..pos + 1][..pos] == items[..pos];
        FillOne(items[pos], pos);
      }
      assert items[..|items|] == items;
    }

    method FillOne(v: string, pos: nat)
      modifies this
      ensures parameters == old(parameters)
      ensures Snapshot() == PassFixed(old(Snapshot()), v, pos)
    {
      if Decref(v) in cleanupActions {
        cleanupActions := Remove(cleanupActions, Decref(v));
        body := body + [SetItem(pos, v)];
      } else {
        body := body + [Incref(v), SetItem(pos, v)];
      }
    }

    method FillOptional()
      modifies this
      ensures parameters == old(parameters)
      ensures Snapshot() == PassAllOptional(old(Snapshot()), old(pyargvOptionalItems), |old(pyargvItems)|)
    {
      ghost var start := Snapshot();
      var items, base := pyargvOptionalItems, |pyargvItems|;
      for i := 0 to |items|
        invariant parameters == old(parameters)
        invariant Snapshot() == PassAllOptional(start, items[..i], base)
      {
        assert items[..i + 1][..i] == items[..i];
        FillOneOptional(items[i], base + i);
      }
      assert items[..|items|] == items;
    }

    method FillOneOptional(v: string, pos: nat)
      modifies this
      ensures parameters == old(parameters)
      ensures Snapshot() == PassOptional(old(Snapshot()), v, pos)
    {
      if Xdecref(v) in cleanupActions {
        cleanupActions := Remove(cleanupActions, Xdecref(v));
        body := body + [SetItemIfSet(pos, v, false)];
      } else {
        body := body + [SetItemIfSet(pos, v, true)];
      }
    }

    method WriteCall()
      modifies this
      ensures parameters == old(parameters)
      ensures Snapshot() == CallMethod(old(Snapshot()), ret)
    {
      var args := if pyargvItems != [] || pyargvOptionalItems != [] then Some(PY_ARGS) else None;
      Write([GetAttr(PY_METHOD, PY_SELF)], Some(Decref(PY_METHOD)), Some(IsNull(PY_METHOD)), Body);
      Write([Call(PY_RETVAL, PY_METHOD, args)], Some(Xdecref(PY_RETVAL)), None, Body);
      body, checkExceptionCode := body + checkExceptionCode, [];
      Write([], None, Some(IsNull(PY_RETVAL)), Body);
    }

    method WriteReturnConversion()
      modifies this
      ensures parameters == old(parameters)
      ensures Snapshot() == WriteConversion(old(Snapshot()), ret)
    {
      match ret {
        case VoidReturn => pyretParseItems := [ParseItem("", "")] + pyretParseItems;
        case StringReturn =>
          pyretParseItems := [ParseItem("s", "&retval")] + pyretParseItems;
          Write([Read(PY_RETVAL), StoreRetval], None, None, PostReturn);
        case IntReturn => pyretParseItems := [ParseItem("i", "&retval")] + pyretParseItems;
        case DoubleReturn => pyretParseItems := [ParseItem("d", "&retval")] + pyretParseItems;
        case BooleanReturn =>
          pyretParseItems := [ParseItem("O", "&py_main_retval")] + pyretParseItems;
          Write([Read(PY_RETVAL), StoreRetval], None, None, PostReturn);
        case _ =>
          Write([Read(PY_RETVAL)], None, Some(Fails(TypeTest)), Body);
          Write([Read(PY_RETVAL), StoreRetval], None, None, Body);
      }
    }

    method WriteParse()
      modifies this
      ensures parameters == old(parameters)
      ensures Snapshot() == ParseReturn(old(Snapshot()), ret)
    {
      if pyretParseItems == [ParseItem("", "")] {
        Write([], None, Some(Fails(TypeTest)), Body);
      } else {
        if |pyretParseItems| == 1 {
          Write([PackInTuple(PY_RETVAL)], None, None, Body);
        }
        if |pyretParseItems| > 0 {
          Write([Read(PY_RETVAL)], None, Some(Fails(Parse)), Body);
          if ret.IntReturn? || ret.DoubleReturn? {
            Write([StoreRetval], None, None, Body);
          }
        }
      }
    }

    method Generate() returns (code: Option<seq<Instr>>)
      requires Snapshot() == EMPTY
      modifies this
      ensures code == Program(ret, old(parameters))
    {
      ConvertParameters();
      FillTuple();
      WriteCall();
      var lenBefore := |pyretParseItems|;
      WriteReturnConversion();
      var lenAfter := |pyretParseItems|;
      if ret != VoidReturn && lenBefore == lenAfter && lenAfter > 0 {
        return None;
      }
      WriteParse();
      var assembled := AssembleCode();
      return Some(assembled);
    }

    method AssembleCode() returns (out: seq<Instr>)
      ensures out == Assemble(Snapshot(), ret)
    {
      out := body + postReturnCode;
      for i := 0 to |cleanupActions|
        invariant out == body + postReturnCode + Performs(cleanupActions[..i])
      {
        out := out + [Perform(cleanupActions[i])];
        assert Performs(cleanupActions[..i + 1]) == Performs(cleanupActions[..i]) + [Perform(cleanupActions[i])];
      }
      assert cleanupActions[..|cleanupActions|] == cleanupActions;
      out := out + [Return(ret != VoidReturn)];
    }
  }
}
