/**
 How the generator assembles the argument parsing of a wrapper: class WrapperInfo and the write_param
 methods of codegen/argtypes.py, driven by write_function_wrapper in codegen/codegen.py.
 */
module ParseCall {
  import opened Wrappers

  // ---------- parameters and what a wrapper is made of ----------

  /** The write_param methods of the ArgType classes.  A type that is only returned has none, and a type
      the matcher does not know has no handler. */
  datatype Handler =
    | StringArg | UCharArg | CharArg | GUniCharArg | IntArg | UIntArg | SizeArg | SSizeArg | LongArg | TimeTArg
    | ULongArg | UInt32Arg | Int64Arg | UInt64Arg | DoubleArg | FileArg | EnumArg | FlagsArg | ObjectArg
    | BoxedArg | CustomBoxedArg | PointerArg | AtomArg | GTypeArg | GErrorArg | TreePathArg | RectanglePtrArg
    | PyObjectArg | CairoArg | ReturnOnly | NotFound

  datatype Param = Param(handler: Handler, ptype: string, name: string, dflt: Option<string>, nullable: bool)

  /** Facts about the C compiler the wrappers are generated for and with. */
  datatype Platform = Platform(longHoldsPointers: bool, longIsWide: bool, timeIsInt: bool, sizeClean: bool)

  datatype CType = Plain(text: string) | PointerTo(text: string)

  datatype Decl = Decl(ctype: CType, name: string, initialised: bool)

  /** The arguments behind the format string: the text before the keyword list, the keyword list, `&name`,
      a type object, a converter function. */
  datatype ParseArg = Blank | KwList | AddressOf(name: string) | TypeObject | Converter

  /** Code between the parsing and the call: `Fetch` reads `from` and stores what it converts it to in
      `into`, if guarded only when `from` is not NULL; `Check` only reads. */
  datatype Stmt = Fetch(from: string, into: string, guarded: bool) | Check(name: string)

  /** The arguments of the C call: the empty one that gives methods their leading comma, the value or the
      address of a variable. */
  datatype CArg = Lead | Value(name: string) | Address(name: string)

  datatype WrapError = ArgTypeNotFoundError | RuntimeError | TypeError

  /** What one handler adds. */
  datatype Part = Part(decls: seq<Decl>, codes: string, pointers: seq<ParseArg>, keywords: seq<string>,
                       code: seq<Stmt>, args: seq<CArg>)

  datatype Info = Info(varlist: seq<Decl>, parsestr: string, parselist: seq<ParseArg>, kwlist: seq<string>,
                       codebefore: seq<Stmt>, arglist: seq<CArg>)

  const PYTHON_KEYWORDS: set<string> :=
    {"and", "as", "assert", "break", "class", "continue", "def", "del", "elif", "else", "except", "exec", "finally",
     "for", "from", "global", "if", "import", "in", "is", "lambda", "not", "or", "pass", "print", "raise", "return",
     "try", "while", "with", "yield"}

  function Keyword(name: string): string {
    if name in PYTHON_KEYWORDS then name + "_" else name
  }

  function Keywords(names: seq<string>): seq<string> {
    seq(|names|, i requires 0 <= i < |names| => Keyword(names[i]))
  }

  function Py(name: string): string {
    "py_" + name
  }

  function Len(name: string): string {
    name + "_len"
  }

  function Rect(name: string): string {
    name + "_rect"
  }

  /** Handlers test the default for truth: an empty default is as good as none. */
  predicate HasDefault(p: Param) {
    p.dflt.Some? && p.dflt.value != ""
  }

  const OBJECT_REF := PointerTo("PyObject")

  // ---------- the handlers ----------

  function Simple(p: Param, ctype: CType, codes: string): Part {
    Part([Decl(ctype, p.name, HasDefault(p))], codes, [AddressOf(p.name)], [p.name], [], [Value(p.name)])
  }

  /** The variable `name` is filled from `py_name`, which the parsing fills. */
  function Through(p: Param, ctype: CType, initialised: bool, pyType: CType, pyInitialised: bool, codes: string,
                   guarded: bool): Part
  {
    Part([Decl(ctype, p.name, initialised), Decl(pyType, Py(p.name), pyInitialised)], codes,
         if codes == "O!" then [TypeObject, AddressOf(Py(p.name))] else [AddressOf(Py(p.name))], [p.name],
         [Fetch(Py(p.name), p.name, guarded)], [Value(p.name)])
  }

  /** The parsed object itself is the variable. */
  function Direct(p: Param, ctype: CType, codes: string): Part {
    Part([Decl(ctype, p.name, false)], codes,
         if codes == "O!" then [TypeObject, AddressOf(p.name)] else [AddressOf(p.name)], [p.name], [], [Value(p.name)])
  }

  function WriteNumber(p: Param, plat: Platform): Part
  {
    match p.handler
    case CharArg => Simple(p, Plain("char"), "c")
    case SizeArg => Simple(p, Plain("gsize"), if plat.longHoldsPointers then "k" else "K")
    case SSizeArg => Simple(p, Plain("gssize"), if plat.longHoldsPointers then "l" else "L")
    case LongArg => Simple(p, Plain("long"), "l")
    case TimeTArg => Simple(p, Plain("time_t"), "i")
    case ULongArg => Simple(p, Plain("unsigned long"), "k")
    case UInt32Arg =>
      Simple(p, Plain("unsigned long"), "k").(code := if plat.longIsWide then [Check(p.name)] else [])
    case Int64Arg => Simple(p, Plain("gint64"), "L")
    case DoubleArg => Simple(p, Plain("double"), "d")
    case _ => Simple(p, Plain("int"), "i")
  }

  function WriteObject(p: Param): Part {
    var own := PointerTo(p.ptype);
    if p.nullable then
      Through(p, own, true, PointerTo("PyGObject"), HasDefault(p), "O", true).(
        args := if p.ptype != "" && p.ptype[|p.ptype| - 1] == '*' then [Value(p.name)] else [])
    else if HasDefault(p) then Through(p, own, true, PointerTo("PyGObject"), true, "O!", true)
    else Direct(p, PointerTo("PyGObject"), "O!")
  }

  /** For a FILE* that may be NULL the handler itself fails, over its own templates. */
  function WriteFile(p: Param): Result<Part, WrapError> {
    if p.nullable then Err(TypeError)
    else if HasDefault(p) then
      Ok(Through(p, PointerTo("FILE"), true, OBJECT_REF, true, "O!", true).(
           pointers := [TypeObject, AddressOf(p.name)]))
    else Ok(Direct(p, OBJECT_REF, "O!"))
  }

  function WriteParam(p: Param, plat: Platform): Result<Part, WrapError> {
    match p.handler
    case StringArg =>
      Ok(Part([Decl(PointerTo("char"), p.name, p.dflt.Some?)], if p.nullable then "z" else "s", [AddressOf(p.name)],
              [p.name], [], [Value(p.name)]))
    case UCharArg =>
      Ok(Part([Decl(PointerTo("guchar"), p.name, HasDefault(p)),
               Decl(Plain(if plat.sizeClean then "Py_ssize_t" else "int"), Len(p.name), false)],
              if p.nullable then "z#" else "s#", [AddressOf(p.name), AddressOf(Len(p.name))], [p.name],
              [], [Value(p.name)]))
    case GUniCharArg => Ok(Simple(p, Plain("gunichar"), "O&").(pointers := [Converter, AddressOf(p.name)]))
    case UIntArg => Ok(Through(p, Plain("guint"), true, OBJECT_REF, true, "O", true))
    case UInt64Arg => Ok(Through(p, Plain("guint64"), HasDefault(p), OBJECT_REF, true, "O!", HasDefault(p)))
    case FileArg => WriteFile(p)
    case EnumArg => Ok(Through(p, Plain(p.ptype), HasDefault(p), OBJECT_REF, true, "O", false))
    case FlagsArg => Ok(Through(p, Plain(p.ptype), HasDefault(p), OBJECT_REF, true, "O", HasDefault(p)))
    case ObjectArg => Ok(WriteObject(p))
    case BoxedArg => Ok(Through(p, PointerTo(p.ptype), true, OBJECT_REF, p.nullable, "O", false))
    case CustomBoxedArg =>
      Ok(if p.nullable then Through(p, Plain(p.ptype), true, OBJECT_REF, true, "O", false)
         else Direct(p, OBJECT_REF, "O!"))
    case PointerArg => Ok(Through(p, PointerTo(p.ptype), true, OBJECT_REF, p.nullable, "O", false))
    case AtomArg => Ok(Through(p, Plain("GdkAtom"), HasDefault(p), OBJECT_REF, true, "O", HasDefault(p)))
    case GTypeArg => Ok(Through(p, Plain("GType"), false, OBJECT_REF, true, "O", false))
    case GErrorArg => Ok(Part([Decl(PointerTo("GError"), p.name, true)], "", [], [], [], [Address(p.name)]))
    case TreePathArg => Ok(Through(p, PointerTo("GtkTreePath"), p.nullable, OBJECT_REF, p.nullable, "O", false))
    case RectanglePtrArg =>
      var part := Through(p, if p.nullable then PointerTo("GdkRectangle") else Plain("GdkRectangle"), !p.nullable,
                          OBJECT_REF, p.nullable, "O", false);
      Ok(if p.nullable then part.(decls := [Decl(Plain("GdkRectangle"), Rect(p.name), true)] + part.decls)
         else part.(args := [Address(p.name)]))
    case PyObjectArg => Ok(Direct(p, OBJECT_REF, "O"))
    case CairoArg => Ok(Direct(p, PointerTo("PycairoContext"), "O!"))
    case ReturnOnly => Err(RuntimeError)
    case NotFound => Err(ArgTypeNotFoundError)
    case _ => Ok(WriteNumber(p, plat))
  }

  // ---------- putting the parts together ----------

  function Start(isMethod: bool): Info {
    Info([], "", [Blank, KwList], [], [], if isMethod then [Lead] else [])
  }

  function AddBar(info: Info): Info {
    info.(parsestr := info.parsestr + "|")
  }

  function AddPart(info: Info, part: Part): Info {
    Info(info.varlist + part.decls, info.parsestr + part.codes, info.parselist + part.pointers,
         info.kwlist + Keywords(part.keywords), info.codebefore + part.code, info.arglist + part.args)
  }

  function AddParam(info: Info, p: Param, plat: Platform): Result<Info, WrapError> {
    match WriteParam(p, plat)
    case Err(e) => Err(e)
    case Ok(part) => Ok(AddPart(if p.dflt.Some? && '|' !in info.parsestr then AddBar(info) else info, part))
  }

  function Build(params: seq<Param>, plat: Platform, isMethod: bool): Result<Info, WrapError> {
    if params == [] then Ok(Start(isMethod)) else
    match Build(params[..|params| - 1], plat, isMethod)
    case Err(e) => Err(e)
    case Ok(info) => AddParam(info, params[|params| - 1], plat)
  }

  class WrapperInfo {
    var varlist: seq<Decl>
    var parsestr: string
    var parselist: seq<ParseArg>
    var kwlist: seq<string>
    var codebefore: seq<Stmt>
    var arglist: seq<CArg>

    constructor ()
      ensures Now() == Start(false)
    {
      varlist, parsestr, parselist, kwlist, codebefore, arglist := [], "", [Blank, KwList], [], [], [];
    }

    function Now(): Info
      reads this
    {
      Info(varlist, parsestr, parselist, kwlist, codebefore, arglist)
    }

    method AddParselist(codes: string, parseargs: seq<ParseArg>, keywords: seq<string>)
      modifies `parsestr, `parselist, `kwlist
      ensures parsestr == old(parsestr) + codes && parselist == old(parselist) + parseargs
      ensures kwlist == old(kwlist) + Keywords(keywords)
    {
      parsestr := parsestr + codes;
      for i := 0 to |parseargs|
        invariant parsestr == old(parsestr) + codes && kwlist == old(kwlist)
        invariant parselist == old(parselist) + parseargs[..i]
      {
        parselist := parselist + [parseargs[i]];
        assert parseargs[..i + 1] == parseargs[..i] + [parseargs[i]];
      }
      assert parseargs[..|parseargs|] == parseargs;
      for i := 0 to |keywords|
        invariant parsestr == old(parsestr) + codes && parselist == old(parselist) + parseargs
        invariant kwlist == old(kwlist) + Keywords(keywords[..i])
      {
        var kw := keywords[i];
        if kw in PYTHON_KEYWORDS {
          kw := kw + "_";
        }
        kwlist := kwlist + [kw];
        assert Keywords(keywords[..i + 1]) == Keywords(keywords[..i]) + [kw];
      }
      assert keywords[..|keywords|] == keywords;
    }

    method BeginOptional()
      modifies this
      ensures Now() == AddBar(old(Now()))
    {
      AddParselist("|", [], []);
      assert parselist == old(parselist) && kwlist == old(kwlist);
    }

    method Add(part: Part)
      modifies this
      ensures Now() == AddPart(old(Now()), part)
    {
      varlist := varlist + part.decls;
      codebefore := codebefore + part.code;
      arglist := arglist + part.args;
      AddParselist(part.codes, part.pointers, part.keywords);
    }

    /** The parameter part of write_function_wrapper, on a new WrapperInfo. */
    method WriteParams(params: seq<Param>, varargs: bool, isMethod: bool, plat: Platform)
        returns (error: Option<WrapError>)
      requires Now() == Start(false)
      modifies this
      ensures var built := if varargs then Err(ArgTypeNotFoundError) else Build(params, plat, isMethod);
              if built.Err? then error == Some(built.error) else error == None && Now() == built.value
    {
      if isMethod {
        arglist := arglist + [Lead];
      }
      assert Now() == Start(isMethod);
      assert params[..0] == [];
      if varargs {
        return Some(ArgTypeNotFoundError);
      }
      for i := 0 to |params|
        invariant Build(params[..i], plat, isMethod) == Ok(Now())
      {
        var p := params[i];
        if p.dflt.Some? && '|' !in parsestr {
          BeginOptional();
        }
        var written := WriteParam(p, plat);
        BuildNext(params, i, plat, isMethod);
        if written.Err? {
          BuildStops(params, i, plat, isMethod);
          return Some(written.error);
        }
        Add(written.value);
      }
      assert params[..|params|] == params;
      error := None;
    }
  }

  lemma BuildNext(params: seq<Param>, i: nat, plat: Platform, isMethod: bool)
    requires i < |params| && Build(params[..i], plat, isMethod).Ok?
    ensures Build(params[..i + 1], plat, isMethod) ==
            AddParam(Build(params[..i], plat, isMethod).value, params[i], plat)
  {
    assert params[..i + 1][..i] == params[..i];
  }

  lemma {:induction false} BuildStops(params: seq<Param>, i: nat, plat: Platform, isMethod: bool)
    requires i < |params| && Build(params[..i + 1], plat, isMethod).Err?
    ensures Build(params, plat, isMethod) == Build(params[..i + 1], plat, isMethod)
    decreases |params|
  {
    if i + 1 == |params| {
      assert params[..i + 1] == params;
    } else {
      var before := params[..|params| - 1];
      assert before[..i + 1] == params[..i + 1];
      BuildStops(before, i, plat, isMethod);
    }
  }

  lemma NoKeywordEndsSo(name: string)
    requires name in PYTHON_KEYWORDS
    ensures name != "" && name[|name| - 1] != '_'
  {
  }

  /** A keyword list holds no word of the language, and a name is changed only if it is one. */
  lemma KeywordsAreUsable(name: string)
    ensures Keyword(name) !in PYTHON_KEYWORDS
    ensures if name in PYTHON_KEYWORDS then Keyword(name) == name + ['_'] else Keyword(name) == name
  {
    if name + "_" in PYTHON_KEYWORDS {
      NoKeywordEndsSo(name + "_");
    }
  }

  /** An empty default begins the optional arguments like any other, but only a string has it as its value:
      every other handler then writes what it writes without a default. */
  lemma EmptyDefaultIsNone(p: Param, plat: Platform)
    requires p.dflt == Some("")
    ensures !p.handler.StringArg? ==> WriteParam(p, plat) == WriteParam(p.(dflt := None), plat)
    ensures p.handler.StringArg? ==> WriteParam(p, plat).value.decls[0].initialised
  {
    match p.handler {
      case ObjectArg => assert WriteObject(p) == WriteObject(p.(dflt := None));
      case FileArg => assert WriteFile(p) == WriteFile(p.(dflt := None));
      case _ => assert WriteNumber(p, plat) == WriteNumber(p.(dflt := None), plat);
    }
  }
}
