/**
 Every generated argument parsing: its format string is well formed, its pointers are of the right types,
 and no variable is read before it is set, however many optional arguments are left out.
 */
module ParseSafety {
  import opened Wrappers
  import opened ParseCall
  import opened ParseFormat

  // ---------- which variables are set ----------

  function Initialised(decls: seq<Decl>): set<string> {
    if decls == [] then {} else
    Initialised(decls[..|decls| - 1]) + if decls[|decls| - 1].initialised then {decls[|decls| - 1].name} else {}
  }

  function Targets(pointers: seq<ParseArg>): set<string> {
    if pointers == [] then {} else
    Targets(pointers[..|pointers| - 1]) + match pointers[|pointers| - 1] case AddressOf(name) => {name} case _ => {}
  }

  /** What the code assigns whatever it finds. */
  function Assigned(code: seq<Stmt>): set<string> {
    if code == [] then {} else
    Assigned(code[..|code| - 1]) + match code[|code| - 1] case Fetch(_, into, false) => {into} case _ => {}
  }

  /** The code reads nothing that is not set, starting with the variables in `defined`. */
  predicate Runs(defined: set<string>, code: seq<Stmt>) {
    code == [] || (Runs(defined, code[..|code| - 1]) &&
                   ReadBy(code[|code| - 1]) in defined + Assigned(code[..|code| - 1]))
  }

  predicate CallReads(defined: set<string>, args: seq<CArg>) {
    forall i :: 0 <= i < |args| ==> args[i].Value? ==> args[i].name in defined
  }

  predicate PartRuns(part: Part, given: bool) {
    var defined := Initialised(part.decls) + if given then Targets(part.pointers) else {};
    Runs(defined, part.code) && CallReads(defined + Assigned(part.code), part.args)
  }

  /** The variables stored into when the arguments of the units in `given` are passed. */
  function Written(units: seq<string>, pointers: seq<ParseArg>, given: set<nat>): set<string>
    requires AllUnits(units) && |AllStores(units)| == |pointers|
    decreases |units|
  {
    if units == [] then {} else
    var last := |units| - 1;
    var k := |AllStores(units[..last])|;
    Written(units[..last], pointers[..k], given) + if last in given then Targets(pointers[k..]) else {}
  }

  ghost predicate WellFormed(info: Info) {
    && Decode(info.parsestr).Some? && AllUnits(Decode(info.parsestr).value.units)
    && |info.parselist| == 2 + |AllStores(Decode(info.parsestr).value.units)|
  }

  /** With the arguments in `given`, the code behind the parsing and the call read only what is set. */
  ghost predicate Faultless(info: Info, given: set<nat>)
    requires WellFormed(info)
  {
    var defined := Initialised(info.varlist) + Written(Decode(info.parsestr).value.units, info.parselist[2..], given);
    Runs(defined, info.codebefore) && CallReads(defined + Assigned(info.codebefore), info.arglist)
  }

  // ---------- one parameter ----------

  lemma FewDecls(a: Decl, b: Decl, c: Decl)
    ensures Initialised([a]) == if a.initialised then {a.name} else {}
    ensures Initialised([a, b]) == Initialised([a]) + Initialised([b])
    ensures Initialised([a, b, c]) == Initialised([a]) + Initialised([b]) + Initialised([c])
  {
    assert [a][..0] == [] && [a, b][..1] == [a] && [a, b, c][..2] == [a, b];
  }

  lemma FewTargets(name: string, other: string)
    ensures Targets([AddressOf(name)]) == {name} && Targets([AddressOf(name), AddressOf(other)]) == {name, other}
    ensures Targets([TypeObject, AddressOf(name)]) == {name} && Targets([Converter, AddressOf(name)]) == {name}
  {
    var a := AddressOf(name);
    assert [a][..0] == [] && [TypeObject][..0] == [] && [Converter][..0] == [];
    assert [a, AddressOf(other)][..1] == [a] && [TypeObject, a][..1] == [TypeObject] &&
           [Converter, a][..1] == [Converter];
  }

  lemma OneStmt(defined: set<string>, s: Stmt)
    ensures Runs(defined, [s]) <==> ReadBy(s) in defined
    ensures Assigned([s]) == if s.Fetch? && !s.guarded then {s.into} else {}
    ensures Runs(defined, []) && Assigned([]) == {}
  {
    assert [s][..0] == [];
  }

  /** With the argument left out, what the C code reads is set all the same. */
  predicate OmitSafe(p: Param) {
    match p.handler
    case StringArg => p.dflt.Some?
    case BoxedArg => p.nullable
    case CustomBoxedArg => p.nullable
    case PointerArg => p.nullable
    case TreePathArg => p.nullable
    case RectanglePtrArg => p.nullable
    case PyObjectArg => false
    case CairoArg => false
    case UIntArg => true
    case UInt64Arg => true
    case EnumArg => true
    case FlagsArg => true
    case AtomArg => true
    case GTypeArg => true
    case GErrorArg => true
    case _ => HasDefault(p)
  }

  lemma SimpleRunsWhen(p: Param, ctype: CType, codes: string, given: bool)
    ensures PartRuns(Simple(p, ctype, codes), given) <==> given || HasDefault(p)
    ensures PartRuns(Simple(p, ctype, codes).(code := [Check(p.name)]), given) <==> given || HasDefault(p)
  {
    var d := Decl(ctype, p.name, HasDefault(p));
    FewDecls(d, d, d);
    FewTargets(p.name, p.name);
    var defined := Initialised([d]) + if given then Targets([AddressOf(p.name)]) else {};
    OneStmt(defined, Check(p.name));
    assert [Value(p.name)][0].Value?;
  }

  lemma DirectRunsWhen(p: Param, ctype: CType, codes: string, given: bool)
    ensures PartRuns(Direct(p, ctype, codes), given) <==> given
  {
    var d := Decl(ctype, p.name, false);
    FewDecls(d, d, d);
    FewTargets(p.name, p.name);
    OneStmt({}, Check(p.name));
    assert [Value(p.name)][0].Value?;
  }

  lemma ThroughRunsWhen(p: Param, ctype: CType, initialised: bool, pyType: CType, pyInitialised: bool, codes: string,
                        guarded: bool, given: bool)
    ensures PartRuns(Through(p, ctype, initialised, pyType, pyInitialised, codes, guarded), given) <==>
            (given || pyInitialised) && (initialised || !guarded)
  {
    var d, py := Decl(ctype, p.name, initialised), Decl(pyType, Py(p.name), pyInitialised);
    NamesDiffer(p);
    FewDecls(d, py, py);
    FewDecls(py, py, py);
    FewTargets(Py(p.name), p.name);
    var part := Through(p, ctype, initialised, pyType, pyInitialised, codes, guarded);
    OneStmt(Initialised(part.decls) + if given then Targets(part.pointers) else {}, part.code[0]);
    assert [Value(p.name)][0].Value?;
  }

  /** Of a part like Through, but with other pointers or arguments: enough when both variables are set. */
  lemma BothSetRuns(p: Param, part: Part, ctype: CType, pyType: CType, guarded: bool, given: bool)
    requires part.decls == [Decl(ctype, p.name, true), Decl(pyType, Py(p.name), true)]
    requires part.code == [Fetch(Py(p.name), p.name, guarded)] && (part.args == [] || part.args == [Value(p.name)])
    ensures PartRuns(part, given)
  {
    FewDecls(part.decls[0], part.decls[1], part.decls[1]);
    FewDecls(part.decls[1], part.decls[1], part.decls[1]);
    OneStmt(Initialised(part.decls) + if given then Targets(part.pointers) else {}, part.code[0]);
  }

  lemma NumberRunsWhen(p: Param, plat: Platform, given: bool)
    requires IsNumber(p.handler)
    ensures PartRuns(WriteNumber(p, plat), given) <==> given || HasDefault(p)
  {
    match p.handler {
      case CharArg => SimpleRunsWhen(p, Plain("char"), "c", given);
      case SizeArg => SimpleRunsWhen(p, Plain("gsize"), if plat.longHoldsPointers then "k" else "K", given);
      case SSizeArg => SimpleRunsWhen(p, Plain("gssize"), if plat.longHoldsPointers then "l" else "L", given);
      case LongArg => SimpleRunsWhen(p, Plain("long"), "l", given);
      case TimeTArg => SimpleRunsWhen(p, Plain("time_t"), "i", given);
      case ULongArg => SimpleRunsWhen(p, Plain("unsigned long"), "k", given);
      case UInt32Arg => SimpleRunsWhen(p, Plain("unsigned long"), "k", given);
      case Int64Arg => SimpleRunsWhen(p, Plain("gint64"), "L", given);
      case DoubleArg => SimpleRunsWhen(p, Plain("double"), "d", given);
      case _ => SimpleRunsWhen(p, Plain("int"), "i", given);
    }
  }

  lemma ObjectRunsWhen(p: Param, given: bool)
    ensures PartRuns(WriteObject(p), given) <==> given || HasDefault(p)
  {
    var own, ref := PointerTo(p.ptype), PointerTo("PyGObject");
    if p.nullable {
      ThroughRunsWhen(p, own, true, ref, HasDefault(p), "O", true, given);
      var full := Through(p, own, true, ref, HasDefault(p), "O", true);
      FewDecls(full.decls[0], full.decls[1], full.decls[1]);
    } else if HasDefault(p) {
      ThroughRunsWhen(p, own, true, ref, true, "O!", true, given);
    } else {
      DirectRunsWhen(p, ref, "O!", given);
    }
  }

  lemma FileRunsWhen(p: Param, given: bool)
    requires WriteFile(p).Ok?
    ensures PartRuns(WriteFile(p).value, given) <==> given || HasDefault(p)
  {
    if HasDefault(p) {
      BothSetRuns(p, WriteFile(p).value, PointerTo("FILE"), OBJECT_REF, true, given);
    } else {
      DirectRunsWhen(p, OBJECT_REF, "O!", given);
    }
  }

  lemma RectangleRunsWhen(p: Param, plat: Platform, given: bool)
    requires p.handler.RectanglePtrArg?
    ensures PartRuns(WriteParam(p, plat).value, given) <==> given || p.nullable
  {
    if p.nullable {
      NullableRectangleRuns(p, plat, given);
    } else {
      ThroughRunsWhen(p, Plain("GdkRectangle"), true, OBJECT_REF, false, "O", false, given);
      BareRectangleRuns(p, plat, given);
    }
  }

  lemma NullableRectangleRuns(p: Param, plat: Platform, given: bool)
    requires p.handler.RectanglePtrArg? && p.nullable
    ensures PartRuns(WriteParam(p, plat).value, given)
  {
    var rect, d, py := Decl(Plain("GdkRectangle"), Rect(p.name), true), Decl(PointerTo("GdkRectangle"), p.name, false),
                       Decl(OBJECT_REF, Py(p.name), true);
    var part := WriteParam(p, plat).value;
    assert part.decls == [rect, d, py];
    FewDecls(rect, d, py);
    FewDecls(py, py, py);
    OneStmt(Initialised(part.decls) + if given then Targets(part.pointers) else {}, part.code[0]);
  }

  /** The address of the rectangle is passed, so the call itself reads no variable. */
  lemma BareRectangleRuns(p: Param, plat: Platform, given: bool)
    requires p.handler.RectanglePtrArg? && !p.nullable
    ensures var full := Through(p, Plain("GdkRectangle"), true, OBJECT_REF, false, "O", false);
            PartRuns(WriteParam(p, plat).value, given) <==> PartRuns(full, given)
  {
    var full := Through(p, Plain("GdkRectangle"), true, OBJECT_REF, false, "O", false);
    var d := full.decls[0];
    FewDecls(d, full.decls[1], d);
    assert full.args[0].Value?;
    assert p.name in Initialised([d]) by { FewDecls(d, d, d); }
  }

  lemma SimpleOthersRunWhen(p: Param, plat: Platform, given: bool)
    requires p.handler.StringArg? || p.handler.UCharArg? || p.handler.GUniCharArg? || p.handler.GErrorArg?
    ensures PartRuns(WriteParam(p, plat).value, given) <==> (given && HasUnit(p)) || OmitSafe(p)
  {
    var part := WriteParam(p, plat).value;
    var decls := part.decls;
    FewDecls(decls[0], decls[|decls| - 1], decls[0]);
    FewDecls(decls[|decls| - 1], decls[0], decls[0]);
    FewTargets(p.name, Len(p.name));
    NamesDiffer(p);
    OneStmt({}, Check(p.name));
    assert !p.handler.GErrorArg? ==> part.args[0].Value?;
  }

  /** A parameter's own code is sound exactly when its argument is passed or may be left out. */
  lemma PartRunsWhen(p: Param, plat: Platform, given: bool)
    requires WriteParam(p, plat).Ok?
    ensures PartRuns(WriteParam(p, plat).value, given) <==> (given && HasUnit(p)) || OmitSafe(p)
  {
    match p.handler {
      case StringArg => SimpleOthersRunWhen(p, plat, given);
      case UCharArg => SimpleOthersRunWhen(p, plat, given);
      case GUniCharArg => SimpleOthersRunWhen(p, plat, given);
      case GErrorArg => SimpleOthersRunWhen(p, plat, given);
      case FileArg => FileRunsWhen(p, given);
      case ObjectArg => ObjectRunsWhen(p, given);
      case RectanglePtrArg => RectangleRunsWhen(p, plat, given);
      case UIntArg => ThroughRunsWhen(p, Plain("guint"), true, OBJECT_REF, true, "O", true, given);
      case UInt64Arg => ThroughRunsWhen(p, Plain("guint64"), HasDefault(p), OBJECT_REF, true, "O!", HasDefault(p),
                                        given);
      case EnumArg => ThroughRunsWhen(p, Plain(p.ptype), HasDefault(p), OBJECT_REF, true, "O", false, given);
      case FlagsArg => ThroughRunsWhen(p, Plain(p.ptype), HasDefault(p), OBJECT_REF, true, "O", HasDefault(p), given);
      case BoxedArg => ThroughRunsWhen(p, PointerTo(p.ptype), true, OBJECT_REF, p.nullable, "O", false, given);
      case PointerArg => ThroughRunsWhen(p, PointerTo(p.ptype), true, OBJECT_REF, p.nullable, "O", false, given);
      case CustomBoxedArg =>
        ThroughRunsWhen(p, Plain(p.ptype), true, OBJECT_REF, true, "O", false, given);
        DirectRunsWhen(p, OBJECT_REF, "O!", given);
      case AtomArg => ThroughRunsWhen(p, Plain("GdkAtom"), HasDefault(p), OBJECT_REF, true, "O", HasDefault(p), given);
      case GTypeArg => ThroughRunsWhen(p, Plain("GType"), false, OBJECT_REF, true, "O", false, given);
      case TreePathArg => ThroughRunsWhen(p, PointerTo("GtkTreePath"), p.nullable, OBJECT_REF, p.nullable, "O", false,
                                          given);
      case PyObjectArg => DirectRunsWhen(p, OBJECT_REF, "O", given);
      case CairoArg => DirectRunsWhen(p, PointerTo("PycairoContext"), "O!", given);
      case _ => NumberRunsWhen(p, plat, given);
    }
  }
}
