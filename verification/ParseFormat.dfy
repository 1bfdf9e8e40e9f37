/**
 What PyArg_ParseTupleAndKeywords makes of a generated call: the units of the format string, the
 variables they store into, and which of them are set when optional arguments are left out.
 */
module ParseFormat {
  import opened Wrappers
  import opened ParseCall

  // ---------- format strings ----------

  datatype Format = Format(units: seq<string>, bar: Option<nat>)

  predicate IsSingle(c: char) {
    c == 's' || c == 'z' || c == 'c' || c == 'i' || c == 'k' || c == 'K' || c == 'l' || c == 'L' || c == 'd' || c == 'O'
  }

  predicate IsDouble(c: char, mark: char) {
    ((c == 's' || c == 'z') && mark == '#') || (c == 'O' && (mark == '!' || mark == '&'))
  }

  /** The length of the unit at the start of a format, 0 if there is none. */
  function UnitLength(fmt: string): (n: nat)
    ensures n <= |fmt|
  {
    if |fmt| >= 2 && IsDouble(fmt[0], fmt[1]) then 2 else if |fmt| >= 1 && IsSingle(fmt[0]) then 1 else 0
  }

  predicate IsUnit(u: string) {
    u != "" && UnitLength(u) == |u|
  }

  /** The units of a format, and how many come before its bar; None if it is malformed. */
  function Decode(fmt: string): Option<Format>
    decreases |fmt|
  {
    if fmt == "" then Some(Format([], None))
    else if fmt[0] == '|' then
      match Decode(fmt[1..])
      case Some(Format(units, None)) => Some(Format(units, Some(0)))
      case _ => None
    else
      var n := UnitLength(fmt);
      if n == 0 then None else
      match Decode(fmt[n..])
      case None => None
      case Some(Format(units, bar)) => Some(Format([fmt[..n]] + units, if bar.Some? then Some(bar.value + 1) else None))
  }

  lemma SliceOfSum(a: string, b: string, n: nat)
    requires n <= |a|
    ensures (a + b)[n..] == a[n..] + b && (a + b)[..n] == a[..n]
  {
  }

  lemma ConsSnoc(u: string, units: seq<string>, v: string)
    ensures [u] + (units + [v]) == [u] + units + [v]
  {
  }

  /** A unit written behind a format is read as one more unit: its first character never joins the
      unit before it. */
  lemma {:induction false} DecodeUnit(fmt: string, u: string)
    requires Decode(fmt).Some? && IsUnit(u)
    ensures Decode(fmt + u) == Some(Decode(fmt).value.(units := Decode(fmt).value.units + [u]))
    decreases |fmt|
  {
    if fmt == "" {
      assert fmt + u == u && u[..|u|] == u && u[|u|..] == "";
      assert [u] + [] == [] + [u];
    } else if fmt[0] == '|' {
      SliceOfSum(fmt, u, 1);
      DecodeUnit(fmt[1..], u);
    } else {
      var n := UnitLength(fmt);
      UnitStays(fmt, u);
      SliceOfSum(fmt, u, n);
      DecodeUnit(fmt[n..], u);
      ConsSnoc(fmt[..n], Decode(fmt[n..]).value.units, u);
    }
  }

  lemma UnitStays(fmt: string, u: string)
    requires UnitLength(fmt) > 0 && u != "" && u[0] != '#' && u[0] != '!' && u[0] != '&'
    ensures UnitLength(fmt + u) == UnitLength(fmt)
  {
  }

  lemma {:induction false} DecodeBar(fmt: string)
    requires Decode(fmt).Some? && Decode(fmt).value.bar.None?
    ensures Decode(fmt + "|") == Some(Decode(fmt).value.(bar := Some(|Decode(fmt).value.units|)))
    decreases |fmt|
  {
    if fmt == "" {
      assert fmt + "|" == "|" && "|"[1..] == "";
    } else {
      UnitStays(fmt, "|");
      SliceOfSum(fmt, "|", UnitLength(fmt));
      DecodeBar(fmt[UnitLength(fmt)..]);
    }
  }

  lemma {:induction false} BarShows(fmt: string)
    requires Decode(fmt).Some?
    ensures '|' in fmt <==> Decode(fmt).value.bar.Some?
    decreases |fmt|
  {
    if fmt != "" && fmt[0] != '|' {
      var n := UnitLength(fmt);
      BarShows(fmt[n..]);
      assert fmt == fmt[..n] + fmt[n..];
      assert '|' !in fmt[..n];
    }
  }

  // ---------- what a unit stores into ----------

  datatype Store =
    | StringStore | BytesStore | LengthStore | CharStore | IntStore | ULongStore | ULongLongStore | LongStore
    | LongLongStore | DoubleStore | ObjectStore | TypeGiven | ConverterGiven | AnyStore

  /** What the pointers that a unit consumes have to be. */
  function Stores(u: string): seq<Store>
    requires IsUnit(u)
  {
    if |u| == 2 then
      if u[1] == '#' then [BytesStore, LengthStore]
      else if u[1] == '!' then [TypeGiven, ObjectStore] else [ConverterGiven, AnyStore]
    else if u[0] == 's' || u[0] == 'z' then [StringStore]
    else if u[0] == 'c' then [CharStore]
    else if u[0] == 'i' then [IntStore]
    else if u[0] == 'k' then [ULongStore]
    else if u[0] == 'K' then [ULongLongStore]
    else if u[0] == 'l' then [LongStore]
    else if u[0] == 'L' then [LongLongStore]
    else if u[0] == 'd' then [DoubleStore]
    else [ObjectStore]
  }

  predicate AllUnits(units: seq<string>) {
    forall i :: 0 <= i < |units| ==> IsUnit(units[i])
  }

  function AllStores(units: seq<string>): seq<Store>
    requires AllUnits(units)
  {
    if units == [] then [] else AllStores(units[..|units| - 1]) + Stores(units[|units| - 1])
  }

  lemma {:induction false} DecodesToUnits(fmt: string)
    requires Decode(fmt).Some?
    ensures AllUnits(Decode(fmt).value.units)
    decreases |fmt|
  {
    if fmt != "" {
      var n := if fmt[0] == '|' then 1 else UnitLength(fmt);
      DecodesToUnits(fmt[n..]);
    }
  }

  /** Whether a variable of this C type can take what is stored. */
  predicate Takes(plat: Platform, store: Store, t: CType) {
    match store
    case StringStore => t == PointerTo("char")
    case BytesStore => t == PointerTo("guchar")
    case LengthStore => t == Plain(if plat.sizeClean then "Py_ssize_t" else "int")
    case CharStore => t == Plain("char")
    case IntStore => t == Plain("int") || (plat.timeIsInt && t == Plain("time_t"))
    case ULongStore => t == Plain("unsigned long") || (plat.longHoldsPointers && t == Plain("gsize"))
    case ULongLongStore => !plat.longHoldsPointers && t == Plain("gsize")
    case LongStore => t == Plain("long") || (plat.longHoldsPointers && t == Plain("gssize"))
    case LongLongStore => t == Plain("gint64") || (!plat.longHoldsPointers && t == Plain("gssize"))
    case DoubleStore => t == Plain("double")
    case ObjectStore => t == PointerTo("PyObject") || t == PointerTo("PyGObject") || t == PointerTo("PycairoContext")
    case TypeGiven => false
    case ConverterGiven => false
    case AnyStore => true
  }

  predicate IsDeclared(decls: seq<Decl>, name: string) {
    exists i :: 0 <= i < |decls| && decls[i].name == name
  }

  /** A pointer that suits the store: the address of a declared variable of the right type, and a type
      object or a converter just where one is expected. */
  ghost predicate Fits(plat: Platform, store: Store, pointer: ParseArg, decls: seq<Decl>) {
    match pointer
    case AddressOf(name) =>
      && IsDeclared(decls, name)
      && forall i :: 0 <= i < |decls| && decls[i].name == name ==> Takes(plat, store, decls[i].ctype)
    case TypeObject => store.TypeGiven?
    case Converter => store.ConverterGiven?
    case _ => false
  }

  ghost predicate AllFit(plat: Platform, stores: seq<Store>, pointers: seq<ParseArg>, decls: seq<Decl>) {
    |stores| == |pointers| && forall i :: 0 <= i < |stores| ==> Fits(plat, stores[i], pointers[i], decls)
  }

  // ---------- parameters and their parts ----------

  predicate HasUnit(p: Param) {
    !p.handler.GErrorArg?
  }

  /** The C variables a parameter declares. */
  function Names(p: Param): set<string> {
    match p.handler
    case UCharArg => {p.name, Len(p.name)}
    case RectanglePtrArg => if p.nullable then {p.name, Py(p.name), Rect(p.name)} else {p.name, Py(p.name)}
    case ObjectArg => if p.nullable || HasDefault(p) then {p.name, Py(p.name)} else {p.name}
    case CustomBoxedArg => if p.nullable then {p.name, Py(p.name)} else {p.name}
    case FileArg => if HasDefault(p) then {p.name, Py(p.name)} else {p.name}
    case _ => if IsThrough(p.handler) then {p.name, Py(p.name)} else {p.name}
  }

  predicate IsThrough(h: Handler) {
    h.UIntArg? || h.UInt64Arg? || h.EnumArg? || h.FlagsArg? || h.BoxedArg? || h.PointerArg? || h.AtomArg? ||
    h.GTypeArg? || h.TreePathArg?
  }

  ghost predicate DeclaresIn(decls: seq<Decl>, names: set<string>) {
    forall i :: 0 <= i < |decls| ==> decls[i].name in names
  }

  ghost predicate PointsIn(pointers: seq<ParseArg>, names: set<string>) {
    forall i :: 0 <= i < |pointers| ==> pointers[i].AddressOf? ==> pointers[i].name in names
  }

  function ReadBy(s: Stmt): string {
    match s case Fetch(from, _, _) => from case Check(name) => name
  }

  ghost predicate RunsIn(code: seq<Stmt>, names: set<string>) {
    forall i :: 0 <= i < |code| ==> ReadBy(code[i]) in names && (code[i].Fetch? ==> code[i].into in names)
  }

  ghost predicate ArgsIn(args: seq<CArg>, names: set<string>) {
    forall i :: 0 <= i < |args| ==> args[i].Value? ==> args[i].name in names
  }

  ghost predicate StaysIn(part: Part, names: set<string>) {
    DeclaresIn(part.decls, names) && PointsIn(part.pointers, names) && RunsIn(part.code, names) &&
    ArgsIn(part.args, names)
  }

  /** All that a part uses stays among the variables it declares. */
  ghost predicate UsesItsOwn(part: Part, names: set<string>) {
    StaysIn(part, names) && forall n :: n in names <==> IsDeclared(part.decls, n)
  }

  lemma SimpleUses(p: Param, ctype: CType, codes: string)
    ensures UsesItsOwn(Simple(p, ctype, codes), {p.name})
  {
    assert [Decl(ctype, p.name, HasDefault(p))][0].name == p.name;
  }

  lemma DirectUses(p: Param, ctype: CType, codes: string)
    ensures UsesItsOwn(Direct(p, ctype, codes), {p.name})
  {
    assert [Decl(ctype, p.name, false)][0].name == p.name;
  }

  lemma ThroughUses(p: Param, ctype: CType, initialised: bool, pyType: CType, pyInitialised: bool, codes: string,
                    guarded: bool)
    ensures UsesItsOwn(Through(p, ctype, initialised, pyType, pyInitialised, codes, guarded), {p.name, Py(p.name)})
  {
    var decls := Through(p, ctype, initialised, pyType, pyInitialised, codes, guarded).decls;
    assert decls[0].name == p.name && decls[1].name == Py(p.name);
  }

  lemma ThroughHandlersUse(p: Param, plat: Platform)
    requires IsThrough(p.handler)
    ensures UsesItsOwn(WriteParam(p, plat).value, {p.name, Py(p.name)})
  {
    match p.handler {
      case UIntArg => ThroughUses(p, Plain("guint"), true, OBJECT_REF, true, "O", true);
      case UInt64Arg => ThroughUses(p, Plain("guint64"), HasDefault(p), OBJECT_REF, true, "O!", HasDefault(p));
      case EnumArg => ThroughUses(p, Plain(p.ptype), HasDefault(p), OBJECT_REF, true, "O", false);
      case FlagsArg => ThroughUses(p, Plain(p.ptype), HasDefault(p), OBJECT_REF, true, "O", HasDefault(p));
      case AtomArg => ThroughUses(p, Plain("GdkAtom"), HasDefault(p), OBJECT_REF, true, "O", HasDefault(p));
      case GTypeArg => ThroughUses(p, Plain("GType"), false, OBJECT_REF, true, "O", false);
      case TreePathArg => ThroughUses(p, PointerTo("GtkTreePath"), p.nullable, OBJECT_REF, p.nullable, "O", false);
      case _ => ThroughUses(p, PointerTo(p.ptype), true, OBJECT_REF, p.nullable, "O", false);
    }
  }

  lemma FileUses(p: Param)
    requires WriteFile(p).Ok?
    ensures UsesItsOwn(WriteFile(p).value, if HasDefault(p) then {p.name, Py(p.name)} else {p.name})
  {
    if HasDefault(p) {
      ThroughUses(p, PointerTo("FILE"), true, OBJECT_REF, true, "O!", true);
    } else {
      DirectUses(p, OBJECT_REF, "O!");
    }
  }

  lemma ObjectUses(p: Param)
    ensures UsesItsOwn(WriteObject(p), if p.nullable || HasDefault(p) then {p.name, Py(p.name)} else {p.name})
  {
    var own := PointerTo(p.ptype);
    if p.nullable {
      ThroughUses(p, own, true, PointerTo("PyGObject"), HasDefault(p), "O", true);
    } else if HasDefault(p) {
      ThroughUses(p, own, true, PointerTo("PyGObject"), true, "O!", true);
    } else {
      DirectUses(p, PointerTo("PyGObject"), "O!");
    }
  }

  lemma NumberUses(p: Param, plat: Platform)
    ensures UsesItsOwn(WriteNumber(p, plat), {p.name})
  {
    assert WriteNumber(p, plat).decls[0].name == p.name;
  }

  lemma RectangleUses(p: Param, plat: Platform)
    requires p.handler.RectanglePtrArg?
    ensures UsesItsOwn(WriteParam(p, plat).value, Names(p))
  {
    ThroughUses(p, PointerTo("GdkRectangle"), false, OBJECT_REF, true, "O", false);
    ThroughUses(p, Plain("GdkRectangle"), true, OBJECT_REF, false, "O", false);
    var decls := WriteParam(p, plat).value.decls;
    if p.nullable {
      assert decls[0].name == Rect(p.name) && decls[1].name == p.name && decls[2].name == Py(p.name);
    }
  }

  lemma CustomBoxedUses(p: Param)
    ensures UsesItsOwn(Through(p, Plain(p.ptype), true, OBJECT_REF, true, "O", false), {p.name, Py(p.name)})
    ensures UsesItsOwn(Direct(p, OBJECT_REF, "O!"), {p.name})
  {
    ThroughUses(p, Plain(p.ptype), true, OBJECT_REF, true, "O", false);
    DirectUses(p, OBJECT_REF, "O!");
  }

  lemma TextUses(p: Param, plat: Platform)
    requires p.handler.StringArg? || p.handler.UCharArg? || p.handler.GUniCharArg? || p.handler.GErrorArg?
    ensures UsesItsOwn(WriteParam(p, plat).value, Names(p))
  {
    var decls := WriteParam(p, plat).value.decls;
    assert decls[0].name == p.name;
    if p.handler.UCharArg? {
      assert decls[1].name == Len(p.name);
    }
  }

  /** Every pointer, statement and argument of a part is about a variable it declares, and these are
      exactly Names. */
  lemma PartsUseTheirOwn(p: Param, plat: Platform)
    requires WriteParam(p, plat).Ok?
    ensures UsesItsOwn(WriteParam(p, plat).value, Names(p))
  {
    match p.handler {
      case FileArg => FileUses(p);
      case ObjectArg => ObjectUses(p);
      case CustomBoxedArg => CustomBoxedUses(p);
      case RectanglePtrArg => RectangleUses(p, plat);
      case PyObjectArg => DirectUses(p, OBJECT_REF, "O");
      case CairoArg => DirectUses(p, PointerTo("PycairoContext"), "O!");
      case _ =>
        if IsNumber(p.handler) {
          NumberUses(p, plat);
        } else if IsThrough(p.handler) {
          ThroughHandlersUse(p, plat);
        } else {
          TextUses(p, plat);
        }
    }
  }

  predicate IsNumber(h: Handler) {
    h.CharArg? || h.IntArg? || h.SizeArg? || h.SSizeArg? || h.LongArg? || h.TimeTArg? || h.ULongArg? || h.UInt32Arg? ||
    h.Int64Arg? || h.DoubleArg?
  }

  predicate BringsUnit(part: Part, name: string) {
    IsUnit(part.codes) && |Stores(part.codes)| == |part.pointers| && part.keywords == [name]
  }

  lemma UnitsOfOne()
    ensures IsUnit("s") && IsUnit("z") && IsUnit("c") && IsUnit("i") && IsUnit("k")
    ensures IsUnit("K") && IsUnit("l") && IsUnit("L") && IsUnit("d") && IsUnit("O")
  {
  }

  lemma UnitsOfTwo()
    ensures IsUnit("s#") && IsUnit("z#") && IsUnit("O!") && IsUnit("O&")
  {
  }

  lemma NumberBringsUnit(p: Param, plat: Platform)
    ensures BringsUnit(WriteNumber(p, plat), p.name)
  {
    UnitsOfOne();
  }

  lemma ThroughBringsUnit(p: Param, ctype: CType, initialised: bool, pyType: CType, pyInitialised: bool, codes: string,
                          guarded: bool)
    requires codes == "O" || codes == "O!"
    ensures BringsUnit(Through(p, ctype, initialised, pyType, pyInitialised, codes, guarded), p.name)
  {
    UnitsOfOne();
    UnitsOfTwo();
  }

  lemma DirectBringsUnit(p: Param, ctype: CType, codes: string)
    requires codes == "O" || codes == "O!"
    ensures BringsUnit(Direct(p, ctype, codes), p.name)
  {
    UnitsOfOne();
    UnitsOfTwo();
  }

  lemma ObjectBringsUnit(p: Param)
    ensures BringsUnit(WriteObject(p), p.name)
  {
    UnitsOfOne();
    UnitsOfTwo();
  }

  lemma FileBringsUnit(p: Param)
    requires WriteFile(p).Ok?
    ensures BringsUnit(WriteFile(p).value, p.name)
  {
    UnitsOfTwo();
  }

  lemma OthersBringUnits(p: Param, plat: Platform)
    requires WriteParam(p, plat).Ok? && HasUnit(p) && !IsNumber(p.handler) && !p.handler.ObjectArg? &&
             !p.handler.FileArg?
    ensures BringsUnit(WriteParam(p, plat).value, p.name)
  {
    UnitsOfOne();
    UnitsOfTwo();
    match p.handler {
      case StringArg =>
      case UCharArg =>
      case GUniCharArg =>
      case UIntArg => ThroughBringsUnit(p, Plain("guint"), true, OBJECT_REF, true, "O", true);
      case UInt64Arg => ThroughBringsUnit(p, Plain("guint64"), HasDefault(p), OBJECT_REF, true, "O!", HasDefault(p));
      case EnumArg => ThroughBringsUnit(p, Plain(p.ptype), HasDefault(p), OBJECT_REF, true, "O", false);
      case FlagsArg => ThroughBringsUnit(p, Plain(p.ptype), HasDefault(p), OBJECT_REF, true, "O", HasDefault(p));
      case CustomBoxedArg =>
        ThroughBringsUnit(p, Plain(p.ptype), true, OBJECT_REF, true, "O", false);
        DirectBringsUnit(p, OBJECT_REF, "O!");
      case AtomArg => ThroughBringsUnit(p, Plain("GdkAtom"), HasDefault(p), OBJECT_REF, true, "O", HasDefault(p));
      case GTypeArg => ThroughBringsUnit(p, Plain("GType"), false, OBJECT_REF, true, "O", false);
      case PyObjectArg => DirectBringsUnit(p, OBJECT_REF, "O");
      case CairoArg => DirectBringsUnit(p, PointerTo("PycairoContext"), "O!");
      case _ =>
    }
  }

  /** Each parameter brings one unit, the pointers it consumes and one keyword; a GError** brings none. */
  lemma PartsAreUnits(p: Param, plat: Platform)
    requires WriteParam(p, plat).Ok?
    ensures var part := WriteParam(p, plat).value;
            if HasUnit(p) then BringsUnit(part, p.name)
            else part.codes == "" && part.pointers == [] && part.keywords == []
  {
    if p.handler.ObjectArg? {
      ObjectBringsUnit(p);
    } else if p.handler.FileArg? {
      FileBringsUnit(p);
    } else if IsNumber(p.handler) {
      NumberBringsUnit(p, plat);
    } else if HasUnit(p) {
      OthersBringUnits(p, plat);
    }
  }

  /** The variable that is parsed into has the type the unit stores: not for a FILE* with a default,
      where the object goes into the FILE* itself, and not for a time_t that is wider than an int. */
  predicate TypedRight(p: Param, plat: Platform) {
    match p.handler
    case FileArg => !HasDefault(p)
    case TimeTArg => plat.timeIsInt
    case _ => true
  }

  lemma NamesDiffer(p: Param)
    ensures p.name != Py(p.name) && p.name != Len(p.name) && p.name != Rect(p.name)
    ensures Py(p.name) != Rect(p.name)
  {
    assert |Py(p.name)| == |p.name| + 3 && |Len(p.name)| == |p.name| + 4 && |Rect(p.name)| == |p.name| + 5;
  }

  lemma SimpleFits(p: Param, plat: Platform, ctype: CType, codes: string, store: Store)
    requires IsUnit(codes) && Stores(codes) == [store]
    ensures var part := Simple(p, ctype, codes);
            AllFit(plat, Stores(codes), part.pointers, part.decls) <==> Takes(plat, store, ctype)
  {
    var part := Simple(p, ctype, codes);
    assert part.decls[0].name == p.name;
    assert AllFit(plat, Stores(codes), part.pointers, part.decls) ==>
           Fits(plat, Stores(codes)[0], part.pointers[0], part.decls);
  }

  lemma StoresOfOne()
    ensures Stores("s") == [StringStore] && Stores("z") == [StringStore] && Stores("c") == [CharStore]
    ensures Stores("i") == [IntStore] && Stores("k") == [ULongStore] && Stores("K") == [ULongLongStore]
    ensures Stores("l") == [LongStore] && Stores("L") == [LongLongStore] && Stores("d") == [DoubleStore]
    ensures Stores("O") == [ObjectStore] && Stores("O!") == [TypeGiven, ObjectStore] &&
            Stores("O&") == [ConverterGiven, AnyStore]
    ensures Stores("s#") == [BytesStore, LengthStore] && Stores("z#") == [BytesStore, LengthStore]
  {
    UnitsOfOne();
    UnitsOfTwo();
  }

  lemma NumberFitsWhen(p: Param, plat: Platform)
    requires IsNumber(p.handler)
    ensures var part := WriteNumber(p, plat);
            IsUnit(part.codes) && (AllFit(plat, Stores(part.codes), part.pointers, part.decls) <==> TypedRight(p, plat))
  {
    UnitsOfOne();
    StoresOfOne();
    match p.handler {
      case CharArg => SimpleFits(p, plat, Plain("char"), "c", CharStore);
      case SizeArg =>
        SimpleFits(p, plat, Plain("gsize"), "k", ULongStore);
        SimpleFits(p, plat, Plain("gsize"), "K", ULongLongStore);
      case SSizeArg =>
        SimpleFits(p, plat, Plain("gssize"), "l", LongStore);
        SimpleFits(p, plat, Plain("gssize"), "L", LongLongStore);
      case LongArg => SimpleFits(p, plat, Plain("long"), "l", LongStore);
      case TimeTArg => SimpleFits(p, plat, Plain("time_t"), "i", IntStore);
      case ULongArg => SimpleFits(p, plat, Plain("unsigned long"), "k", ULongStore);
      case UInt32Arg => SimpleFits(p, plat, Plain("unsigned long"), "k", ULongStore);
      case Int64Arg => SimpleFits(p, plat, Plain("gint64"), "L", LongLongStore);
      case DoubleArg => SimpleFits(p, plat, Plain("double"), "d", DoubleStore);
      case _ => SimpleFits(p, plat, Plain("int"), "i", IntStore);
    }
  }

  lemma ThroughFits(p: Param, plat: Platform, ctype: CType, initialised: bool, pyType: CType, pyInitialised: bool,
                    codes: string, guarded: bool)
    requires (codes == "O" || codes == "O!") && Takes(plat, ObjectStore, pyType)
    ensures var part := Through(p, ctype, initialised, pyType, pyInitialised, codes, guarded);
            IsUnit(codes) && AllFit(plat, Stores(codes), part.pointers, part.decls)
  {
    UnitsOfOne();
    UnitsOfTwo();
    StoresOfOne();
    NamesDiffer(p);
    var decls := [Decl(ctype, p.name, initialised), Decl(pyType, Py(p.name), pyInitialised)];
    assert decls[1].name == Py(p.name) && decls[0].name != Py(p.name);
    assert Fits(plat, ObjectStore, AddressOf(Py(p.name)), decls);
  }

  lemma DirectFits(p: Param, plat: Platform, ctype: CType, codes: string)
    requires (codes == "O" || codes == "O!") && Takes(plat, ObjectStore, ctype)
    ensures var part := Direct(p, ctype, codes); IsUnit(codes) && AllFit(plat, Stores(codes), part.pointers, part.decls)
  {
    UnitsOfOne();
    UnitsOfTwo();
    StoresOfOne();
    assert [Decl(ctype, p.name, false)][0].name == p.name;
    assert Fits(plat, ObjectStore, AddressOf(p.name), [Decl(ctype, p.name, false)]);
  }

  lemma FileFitsWhen(p: Param, plat: Platform)
    requires WriteFile(p).Ok?
    ensures var part := WriteFile(p).value;
            IsUnit(part.codes) && (AllFit(plat, Stores(part.codes), part.pointers, part.decls) <==> !HasDefault(p))
  {
    if HasDefault(p) {
      UnitsOfTwo();
      StoresOfOne();
      var part := WriteFile(p).value;
      assert part.decls[0] == Decl(PointerTo("FILE"), p.name, true);
      assert !Takes(plat, ObjectStore, part.decls[0].ctype);
      assert !Fits(plat, Stores(part.codes)[1], part.pointers[1], part.decls);
    } else {
      DirectFits(p, plat, OBJECT_REF, "O!");
    }
  }

  lemma BytesFit(p: Param, plat: Platform)
    requires p.handler.UCharArg?
    ensures var part := WriteParam(p, plat).value;
            IsUnit(part.codes) && AllFit(plat, Stores(part.codes), part.pointers, part.decls)
  {
    UnitsOfTwo();
    StoresOfOne();
    NamesDiffer(p);
    var decls := WriteParam(p, plat).value.decls;
    assert decls[0].name == p.name && decls[1].name == Len(p.name);
    assert Fits(plat, BytesStore, AddressOf(p.name), decls) && Fits(plat, LengthStore, AddressOf(Len(p.name)), decls);
  }

  lemma StringFits(p: Param, plat: Platform)
    requires p.handler.StringArg? || p.handler.GUniCharArg?
    ensures var part := WriteParam(p, plat).value;
            IsUnit(part.codes) && AllFit(plat, Stores(part.codes), part.pointers, part.decls)
  {
    UnitsOfOne();
    UnitsOfTwo();
    StoresOfOne();
    assert WriteParam(p, plat).value.decls[0].name == p.name;
  }

  lemma RectangleFits(p: Param, plat: Platform)
    requires p.handler.RectanglePtrArg?
    ensures var part := WriteParam(p, plat).value;
            IsUnit(part.codes) && AllFit(plat, Stores(part.codes), part.pointers, part.decls)
  {
    UnitsOfOne();
    StoresOfOne();
    NamesDiffer(p);
    var part := WriteParam(p, plat).value;
    var last := |part.decls| - 1;
    assert part.decls[last].name == Py(p.name) && part.decls[last - 1].name == p.name &&
           part.decls[0].name != Py(p.name);
    assert Fits(plat, ObjectStore, AddressOf(Py(p.name)), part.decls);
  }

  lemma OthersFit(p: Param, plat: Platform)
    requires WriteParam(p, plat).Ok? && HasUnit(p) && !IsNumber(p.handler) && !p.handler.FileArg?
    ensures var part := WriteParam(p, plat).value;
            IsUnit(part.codes) && AllFit(plat, Stores(part.codes), part.pointers, part.decls)
  {
    match p.handler {
      case StringArg => StringFits(p, plat);
      case GUniCharArg => StringFits(p, plat);
      case UCharArg => BytesFit(p, plat);
      case RectanglePtrArg => RectangleFits(p, plat);
      case UIntArg => ThroughFits(p, plat, Plain("guint"), true, OBJECT_REF, true, "O", true);
      case UInt64Arg => ThroughFits(p, plat, Plain("guint64"), HasDefault(p), OBJECT_REF, true, "O!", HasDefault(p));
      case EnumArg => ThroughFits(p, plat, Plain(p.ptype), HasDefault(p), OBJECT_REF, true, "O", false);
      case FlagsArg => ThroughFits(p, plat, Plain(p.ptype), HasDefault(p), OBJECT_REF, true, "O", HasDefault(p));
      case ObjectArg =>
        ThroughFits(p, plat, PointerTo(p.ptype), true, PointerTo("PyGObject"), HasDefault(p), "O", true);
        ThroughFits(p, plat, PointerTo(p.ptype), true, PointerTo("PyGObject"), true, "O!", true);
        DirectFits(p, plat, PointerTo("PyGObject"), "O!");
      case BoxedArg => ThroughFits(p, plat, PointerTo(p.ptype), true, OBJECT_REF, p.nullable, "O", false);
      case PointerArg => ThroughFits(p, plat, PointerTo(p.ptype), true, OBJECT_REF, p.nullable, "O", false);
      case CustomBoxedArg =>
        ThroughFits(p, plat, Plain(p.ptype), true, OBJECT_REF, true, "O", false);
        DirectFits(p, plat, OBJECT_REF, "O!");
      case AtomArg => ThroughFits(p, plat, Plain("GdkAtom"), HasDefault(p), OBJECT_REF, true, "O", HasDefault(p));
      case GTypeArg => ThroughFits(p, plat, Plain("GType"), false, OBJECT_REF, true, "O", false);
      case TreePathArg => ThroughFits(p, plat, PointerTo("GtkTreePath"), p.nullable, OBJECT_REF, p.nullable, "O",
                                      false);
      case PyObjectArg => DirectFits(p, plat, OBJECT_REF, "O");
      case CairoArg => DirectFits(p, plat, PointerTo("PycairoContext"), "O!");
    }
  }

  lemma PartsFitWhen(p: Param, plat: Platform)
    requires WriteParam(p, plat).Ok? && HasUnit(p)
    ensures IsUnit(WriteParam(p, plat).value.codes)
    ensures var part := WriteParam(p, plat).value;
            AllFit(plat, Stores(part.codes), part.pointers, part.decls) <==> TypedRight(p, plat)
  {
    if p.handler.FileArg? {
      FileFitsWhen(p, plat);
    } else if IsNumber(p.handler) {
      NumberFitsWhen(p, plat);
    } else {
      OthersFit(p, plat);
    }
  }
}
