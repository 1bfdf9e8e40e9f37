/** From single parameters to whole parameter lists: what every generated parse call satisfies. */
module ParseTheorem {
  import opened Sequences
  import opened Wrappers
  import opened ParseCall
  import opened ParseFormat
  import opened ParseSafety

  // ---------- parameter lists ----------

  function UnitParams(params: seq<Param>): seq<Param> {
    if params == [] then [] else
    UnitParams(params[..|params| - 1]) + if HasUnit(params[|params| - 1]) then [params[|params| - 1]] else []
  }

  function NamesOf(params: seq<Param>): seq<string> {
    seq(|params|, i requires 0 <= i < |params| => params[i].name)
  }

  /** The index of the first parameter with a default, or the length. */
  function FirstDefault(params: seq<Param>): (n: nat)
    ensures n <= |params|
    ensures forall i :: 0 <= i < n ==> params[i].dflt.None?
    ensures n < |params| ==> params[n].dflt.Some?
  {
    if params == [] || params[0].dflt.Some? then 0 else 1 + FirstDefault(params[1..])
  }

  /** Where the bar belongs: just before the unit of the first parameter with a default. */
  function BarOf(params: seq<Param>): Option<nat> {
    var n := FirstDefault(params);
    if n < |params| then Some(|UnitParams(params[..n])|) else None
  }

  /** A nullable object whose type does not end in a star gets no argument in the C call. */
  predicate LosesArgument(p: Param) {
    p.handler.ObjectArg? && p.nullable && (p.ptype == "" || p.ptype[|p.ptype| - 1] != '*')
  }

  function ArgumentCount(params: seq<Param>): nat {
    if params == [] then 0 else
    ArgumentCount(params[..|params| - 1]) + if LosesArgument(params[|params| - 1]) then 0 else 1
  }

  function AllNames(params: seq<Param>): set<string> {
    if params == [] then {} else AllNames(params[..|params| - 1]) + Names(params[|params| - 1])
  }

  /** No two parameters declare a variable of one name; the C code would not compile. */
  predicate Apart(params: seq<Param>) {
    params == [] || (Apart(params[..|params| - 1]) && Names(params[|params| - 1]) !! AllNames(params[..|params| - 1]))
  }

  lemma {:induction false} FirstDefaultSnoc(params: seq<Param>, p: Param)
    ensures FirstDefault(params + [p]) ==
            if FirstDefault(params) < |params| then FirstDefault(params)
            else if p.dflt.Some? then |params| else |params| + 1
  {
    if params == [] {
      assert params + [p] == [p];
    } else {
      assert (params + [p])[1..] == params[1..] + [p];
      FirstDefaultSnoc(params[1..], p);
    }
  }

  lemma BarOfSnoc(params: seq<Param>, p: Param)
    ensures BarOf(params + [p]) ==
            if BarOf(params).Some? then BarOf(params) else if p.dflt.Some? then Some(|UnitParams(params)|) else None
  {
    FirstDefaultSnoc(params, p);
    var n := FirstDefault(params);
    assert n < |params| ==> (params + [p])[..n] == params[..n];
    assert (params + [p])[..|params|] == params;
  }

  // ---------- the format string ----------

  /** What the generated call looks like to the parser. */
  ghost predicate Matches(info: Info, params: seq<Param>, isMethod: bool) {
    && WellFormed(info)
    && var f := Decode(info.parsestr).value;
       && |f.units| == |UnitParams(params)| && f.bar == BarOf(params)
       && info.kwlist == Keywords(NamesOf(UnitParams(params)))
       && |info.arglist| == ArgumentCount(params) + if isMethod then 1 else 0
  }

  lemma MatchesStart(isMethod: bool)
    ensures Matches(Start(isMethod), [], isMethod)
  {
    assert Keywords(NamesOf([])) == [];
  }

  lemma BarredMatches(info: Info)
    requires WellFormed(info) && Decode(info.parsestr).value.bar.None?
    ensures WellFormed(AddBar(info))
    ensures Decode(AddBar(info).parsestr).value ==
            Decode(info.parsestr).value.(bar := Some(|Decode(info.parsestr).value.units|))
  {
    DecodeBar(info.parsestr);
  }

  lemma AllStoresSnoc(units: seq<string>, u: string)
    requires AllUnits(units) && IsUnit(u)
    ensures AllUnits(units + [u]) && AllStores(units + [u]) == AllStores(units) + Stores(u)
  {
    assert (units + [u])[..|units|] == units;
  }

  /** Adding a part with a unit adds that unit, its pointers and its keyword. */
  lemma PartExtends(info: Info, p: Param, part: Part)
    requires WellFormed(info) && BringsUnit(part, p.name)
    ensures WellFormed(AddPart(info, part))
    ensures Decode(AddPart(info, part).parsestr).value ==
            Decode(info.parsestr).value.(units := Decode(info.parsestr).value.units + [part.codes])
  {
    DecodeUnit(info.parsestr, part.codes);
    AllStoresSnoc(Decode(info.parsestr).value.units, part.codes);
  }

  lemma EmptyPartExtends(info: Info, part: Part)
    requires WellFormed(info) && part.codes == "" && part.pointers == [] && part.keywords == []
    ensures WellFormed(AddPart(info, part)) && AddPart(info, part).parsestr == info.parsestr
    ensures AddPart(info, part).parselist == info.parselist && AddPart(info, part).kwlist == info.kwlist
  {
    assert Keywords([]) == [];
    assert info.parsestr + "" == info.parsestr && info.parselist + [] == info.parselist &&
           info.kwlist + [] == info.kwlist;
  }

  lemma KeywordsSnoc(params: seq<Param>, p: Param)
    ensures Keywords(NamesOf(params + [p])) == Keywords(NamesOf(params)) + Keywords([p.name])
  {
  }

  /** The format before a parameter is written, with its bar if it is due. */
  function Barred(info: Info, p: Param): Info {
    if p.dflt.Some? && '|' !in info.parsestr then AddBar(info) else info
  }

  lemma BarredIsWellFormed(info: Info, p: Param)
    requires WellFormed(info)
    ensures WellFormed(Barred(info, p))
    ensures var f, g := Decode(info.parsestr).value, Decode(Barred(info, p).parsestr).value;
            g.units == f.units && g.bar == if f.bar.None? && p.dflt.Some? then Some(|f.units|) else f.bar
  {
    BarShows(info.parsestr);
    if p.dflt.Some? && '|' !in info.parsestr {
      BarredMatches(info);
    }
  }

  /** What the proofs below need of a part: its variables are its own, it brings one unit or none, and
      one argument of the call unless the parameter loses its own. */
  ghost predicate Suits(part: Part, p: Param) {
    && StaysIn(part, Names(p)) && |part.args| == (if LosesArgument(p) then 0 else 1)
    && if HasUnit(p) then BringsUnit(part, p.name) else part.codes == "" && part.pointers == [] && part.keywords == []
  }

  ghost predicate AllSuit(parts: seq<Part>, params: seq<Param>) {
    |parts| == |params| && forall k :: 0 <= k < |parts| ==> Suits(parts[k], params[k])
  }

  /** The wrapper put together from parts. */
  function Assemble(params: seq<Param>, parts: seq<Part>, isMethod: bool): Info
    requires |params| == |parts|
    decreases |params|
  {
    if params == [] then Start(isMethod) else
    var last := |params| - 1;
    AddPart(Barred(Assemble(params[..last], parts[..last], isMethod), params[last]), parts[last])
  }

  lemma PartsSuit(p: Param, plat: Platform)
    requires WriteParam(p, plat).Ok?
    ensures Suits(WriteParam(p, plat).value, p)
  {
    PartsUseTheirOwn(p, plat);
    PartsAreUnits(p, plat);
    PartArguments(p, plat);
  }

  lemma PartArguments(p: Param, plat: Platform)
    requires WriteParam(p, plat).Ok?
    ensures |WriteParam(p, plat).value.args| == if LosesArgument(p) then 0 else 1
  {
  }

  ghost predicate AreParts(parts: seq<Part>, params: seq<Param>, plat: Platform) {
    |parts| == |params| && forall k :: 0 <= k < |parts| ==> WriteParam(params[k], plat) == Ok(parts[k])
  }

  lemma BuildLast(params: seq<Param>, plat: Platform, isMethod: bool) returns (info: Info, part: Part)
    requires params != [] && Build(params, plat, isMethod).Ok?
    ensures Build(params[..|params| - 1], plat, isMethod) == Ok(info)
    ensures WriteParam(params[|params| - 1], plat) == Ok(part) && Suits(part, params[|params| - 1])
    ensures Build(params, plat, isMethod) == Ok(AddPart(Barred(info, params[|params| - 1]), part))
  {
    info := Build(params[..|params| - 1], plat, isMethod).value;
    part := WriteParam(params[|params| - 1], plat).value;
    PartsSuit(params[|params| - 1], plat);
  }

  lemma {:induction false} BuildAssembles(params: seq<Param>, plat: Platform, isMethod: bool) returns (parts: seq<Part>)
    requires Build(params, plat, isMethod).Ok?
    ensures AreParts(parts, params, plat) && AllSuit(parts, params)
    ensures Build(params, plat, isMethod) == Ok(Assemble(params, parts, isMethod))
  {
    if params == [] {
      parts := [];
    } else {
      var info, part := BuildLast(params, plat, isMethod);
      var done := BuildAssembles(params[..|params| - 1], plat, isMethod);
      parts := done + [part];
      PartsSnoc(done, part, params, plat);
    }
  }

  lemma PartsSnoc(done: seq<Part>, part: Part, params: seq<Param>, plat: Platform)
    requires params != [] && AreParts(done, params[..|params| - 1], plat) && AllSuit(done, params[..|params| - 1])
    requires WriteParam(params[|params| - 1], plat) == Ok(part) && Suits(part, params[|params| - 1])
    ensures AreParts(done + [part], params, plat) && AllSuit(done + [part], params)
    ensures (done + [part])[..|params| - 1] == done && (done + [part])[|params| - 1] == part
  {
    PairsSnoc(params, done, part, (p: Param, q: Part) => WriteParam(p, plat) == Ok(q) && Suits(q, p));
  }

  lemma PairsSnoc<A, B>(xs: seq<A>, ys: seq<B>, y: B, r: (A, B) -> bool)
    requires |xs| == |ys| + 1 && r(xs[|ys|], y) && forall k :: 0 <= k < |ys| ==> r(xs[..|ys|][k], ys[k])
    ensures forall k :: 0 <= k < |xs| ==> r(xs[k], (ys + [y])[k])
  {
  }

  lemma {:induction false} MatchesAlways(params: seq<Param>, parts: seq<Part>, isMethod: bool)
    requires AllSuit(parts, params)
    ensures Matches(Assemble(params, parts, isMethod), params, isMethod)
    decreases |params|
  {
    if params == [] {
      MatchesStart(isMethod);
    } else {
      var last := |params| - 1;
      var before, p, part := params[..last], params[last], parts[last];
      assert params == before + [p] && Suits(part, p);
      MatchesAlways(before, parts[..last], isMethod);
      MatchesNext(Assemble(before, parts[..last], isMethod), before, p, part, isMethod);
    }
  }

  lemma MatchesNext(info: Info, before: seq<Param>, p: Param, part: Part, isMethod: bool)
    requires Matches(info, before, isMethod) && Suits(part, p)
    ensures Matches(AddPart(Barred(info, p), part), before + [p], isMethod)
  {
    BarredIsWellFormed(info, p);
    BarOfSnoc(before, p);
    assert (before + [p])[..|before|] == before;
    if HasUnit(p) {
      PartExtends(Barred(info, p), p, part);
      KeywordsSnoc(UnitParams(before), p);
    } else {
      EmptyPartExtends(Barred(info, p), part);
      assert UnitParams(before) + [] == UnitParams(before);
    }
  }

  lemma {:induction false} AllArgumentsWhen(params: seq<Param>)
    ensures ArgumentCount(params) <= |params|
    ensures ArgumentCount(params) == |params| <==> forall p :: p in params ==> !LosesArgument(p)
  {
    if params != [] {
      AllArgumentsWhen(params[..|params| - 1]);
      assert forall p :: p in params <==> p in params[..|params| - 1] || p == params[|params| - 1];
    }
  }

  // ---------- what each parameter gets, by its name ----------

  /** What the C function is called with. */
  function Passed(p: Param): seq<CArg> {
    if LosesArgument(p) then []
    else if p.handler.GErrorArg? || (p.handler.RectanglePtrArg? && !p.nullable) then [Address(p.name)]
    else [Value(p.name)]
  }

  function AllPassed(params: seq<Param>): seq<CArg> {
    if params == [] then [] else AllPassed(params[..|params| - 1]) + Passed(params[|params| - 1])
  }

  /** The parsed object goes to a variable of its own, from which the parameter's variable is filled. */
  predicate IsConverted(p: Param) {
    match p.handler
    case ObjectArg => p.nullable || HasDefault(p)
    case CustomBoxedArg => p.nullable
    case RectanglePtrArg => true
    case _ => IsThrough(p.handler)
  }

  /** The unit that parses the argument. */
  function UnitOf(p: Param, plat: Platform): string {
    match p.handler
    case StringArg => if p.nullable then "z" else "s"
    case UCharArg => if p.nullable then "z#" else "s#"
    case CharArg => "c"
    case GUniCharArg => "O&"
    case SizeArg => if plat.longHoldsPointers then "k" else "K"
    case SSizeArg => if plat.longHoldsPointers then "l" else "L"
    case LongArg => "l"
    case ULongArg => "k"
    case UInt32Arg => "k"
    case Int64Arg => "L"
    case DoubleArg => "d"
    case IntArg => "i"
    case TimeTArg => "i"
    case UInt64Arg => "O!"
    case FileArg => "O!"
    case CairoArg => "O!"
    case ObjectArg => if p.nullable then "O" else "O!"
    case CustomBoxedArg => if p.nullable then "O" else "O!"
    case _ => "O"
  }

  /** Where the parser is told to store it. */
  function Received(p: Param, plat: Platform): seq<ParseArg> {
    if p.handler.GErrorArg? then []
    else if p.handler.UCharArg? then [AddressOf(p.name), AddressOf(Len(p.name))]
    else
      var pointer := AddressOf(if IsConverted(p) then Py(p.name) else p.name);
      if UnitOf(p, plat) == "O!" then [TypeObject, pointer]
      else if UnitOf(p, plat) == "O&" then [Converter, pointer] else [pointer]
  }

  function AllReceived(params: seq<Param>, plat: Platform): seq<ParseArg> {
    if params == [] then [] else AllReceived(params[..|params| - 1], plat) + Received(params[|params| - 1], plat)
  }

  function UnitsOf(params: seq<Param>, plat: Platform): seq<string> {
    if params == [] then [] else
    var p := params[|params| - 1];
    UnitsOf(params[..|params| - 1], plat) + if HasUnit(p) then [UnitOf(p, plat)] else []
  }

  /** The conversion leaves the variable as it was when no object was parsed. */
  predicate IsGuarded(p: Param) {
    match p.handler
    case UIntArg => true
    case ObjectArg => true
    case UInt64Arg => HasDefault(p)
    case FileArg => true
    case FlagsArg => HasDefault(p)
    case AtomArg => HasDefault(p)
    case _ => false
  }

  /** What runs between the parsing and the call. */
  function Conversion(p: Param, plat: Platform): seq<Stmt> {
    if p.handler.UInt32Arg? && plat.longIsWide then [Check(p.name)]
    else if IsConverted(p) || (p.handler.FileArg? && HasDefault(p)) then [Fetch(Py(p.name), p.name, IsGuarded(p))]
    else []
  }

  function AllConversions(params: seq<Param>, plat: Platform): seq<Stmt> {
    if params == [] then []
    else AllConversions(params[..|params| - 1], plat) + Conversion(params[|params| - 1], plat)
  }

  /** A part does for its parameter what is said above. */
  predicate Serves(part: Part, p: Param, plat: Platform) {
    && part.args == Passed(p) && part.pointers == Received(p, plat) && part.code == Conversion(p, plat)
    && part.codes == (if HasUnit(p) then UnitOf(p, plat) else "")
  }

  lemma NumberServes(p: Param, plat: Platform)
    requires IsNumber(p.handler)
    ensures Serves(WriteNumber(p, plat), p, plat)
  {
  }

  lemma ObjectServes(p: Param, plat: Platform)
    requires p.handler.ObjectArg?
    ensures Serves(WriteObject(p), p, plat)
  {
  }

  lemma ThroughServes(p: Param, plat: Platform)
    requires IsThrough(p.handler) || p.handler.RectanglePtrArg?
    ensures Serves(WriteParam(p, plat).value, p, plat)
  {
  }

  lemma OthersServe(p: Param, plat: Platform)
    requires WriteParam(p, plat).Ok? && !IsNumber(p.handler) && !p.handler.ObjectArg?
    requires !IsThrough(p.handler) && !p.handler.RectanglePtrArg?
    ensures Serves(WriteParam(p, plat).value, p, plat)
  {
  }

  lemma PartServes(p: Param, plat: Platform)
    requires WriteParam(p, plat).Ok?
    ensures Serves(WriteParam(p, plat).value, p, plat)
  {
    if IsNumber(p.handler) {
      NumberServes(p, plat);
    } else if p.handler.ObjectArg? {
      ObjectServes(p, plat);
    } else if IsThrough(p.handler) || p.handler.RectanglePtrArg? {
      ThroughServes(p, plat);
    } else {
      OthersServe(p, plat);
    }
  }

  predicate AllServe(parts: seq<Part>, params: seq<Param>, plat: Platform) {
    |parts| == |params| && forall k :: 0 <= k < |parts| ==> Serves(parts[k], params[k], plat)
  }

  lemma AllPartsServe(parts: seq<Part>, params: seq<Param>, plat: Platform)
    requires AreParts(parts, params, plat)
    ensures AllServe(parts, params, plat)
  {
    forall k | 0 <= k < |parts|
      ensures Serves(parts[k], params[k], plat)
    {
      PartServes(params[k], plat);
    }
  }

  /** The lists of the call, parameter by parameter. */
  ghost predicate Listed(info: Info, params: seq<Param>, plat: Platform, isMethod: bool) {
    && info.arglist == (if isMethod then [Lead] else []) + AllPassed(params)
    && info.parselist == [Blank, KwList] + AllReceived(params, plat)
    && info.codebefore == AllConversions(params, plat)
    && Decode(info.parsestr).Some? && Decode(info.parsestr).value.units == UnitsOf(params, plat)
  }

  lemma {:induction false} AssembleLists(params: seq<Param>, parts: seq<Part>, plat: Platform, isMethod: bool)
    requires AllSuit(parts, params) && AllServe(parts, params, plat)
    ensures Listed(Assemble(params, parts, isMethod), params, plat, isMethod)
    decreases |params|
  {
    if params == [] {
      Unit(Start(isMethod).arglist);
    } else {
      var last := |params| - 1;
      AssembleLists(params[..last], parts[..last], plat, isMethod);
      MatchesAlways(params[..last], parts[..last], isMethod);
      assert Suits(parts[last], params[last]) && Serves(parts[last], params[last], plat);
      ListsNext(Assemble(params[..last], parts[..last], isMethod), params, parts[last], plat, isMethod);
    }
  }

  lemma ListsNext(info: Info, params: seq<Param>, part: Part, plat: Platform, isMethod: bool)
    requires params != [] && Listed(info, params[..|params| - 1], plat, isMethod) && WellFormed(info)
    requires Suits(part, params[|params| - 1]) && Serves(part, params[|params| - 1], plat)
    ensures Listed(AddPart(Barred(info, params[|params| - 1]), part), params, plat, isMethod)
  {
    var before, p := params[..|params| - 1], params[|params| - 1];
    BarredIsWellFormed(info, p);
    Associative(if isMethod then [Lead] else [], AllPassed(before), Passed(p));
    Associative([Blank, KwList], AllReceived(before, plat), Received(p, plat));
    assert AllConversions(params, plat) == AllConversions(before, plat) + Conversion(p, plat);
    if HasUnit(p) {
      PartExtends(Barred(info, p), p, part);
    } else {
      EmptyPartExtends(Barred(info, p), part);
      Unit(UnitsOf(before, plat));
    }
  }

  /** The variable is parsed into, or filled from the one that is. */
  predicate IsFilled(part: Part, v: string) {
    || AddressOf(v) in part.pointers
    || exists k :: 0 <= k < |part.code| && FillsFrom(part, part.code[k], v)
  }

  predicate FillsFrom(part: Part, s: Stmt, v: string) {
    s.Fetch? && s.into == v && AddressOf(s.from) in part.pointers
  }

  /** What the call is given for a parameter is what was parsed for it. */
  lemma ArgumentArrives(p: Param, plat: Platform)
    requires WriteParam(p, plat).Ok? && HasUnit(p)
    ensures WriteParam(p, plat).value.args == Passed(p) && IsFilled(WriteParam(p, plat).value, p.name)
  {
    PartServes(p, plat);
    var part := WriteParam(p, plat).value;
    if IsConverted(p) {
      ConvertedFetches(p, plat);
      assert part.pointers[|part.pointers| - 1] == AddressOf(Py(p.name));
      assert FillsFrom(part, part.code[0], p.name);
    } else {
      ReceivedDirectly(p, plat);
    }
  }

  lemma ReceivedDirectly(p: Param, plat: Platform)
    requires HasUnit(p) && !IsConverted(p)
    ensures AddressOf(p.name) in Received(p, plat)
  {
    var received := Received(p, plat);
    assert received[0] == AddressOf(p.name) || received[|received| - 1] == AddressOf(p.name);
  }

  lemma ConvertedFetches(p: Param, plat: Platform)
    requires WriteParam(p, plat).Ok? && IsConverted(p)
    ensures var code := WriteParam(p, plat).value.code;
            |code| == 1 && code[0].Fetch? && code[0].from == Py(p.name) && code[0].into == p.name
  {
  }

  /** The parse call is well formed for every parameter list: the format string reads as the units of the
      parameters, one keyword for each in their order; the pointers are theirs, in their order; at most
      one bar, before the unit of the first parameter with a default; the conversions follow in the same
      order; and the C function is called with
      the parameters in their order, all of them unless a nullable object is not written with a star. */
  lemma ParseCallIsWellFormed(params: seq<Param>, plat: Platform, isMethod: bool)
    requires Build(params, plat, isMethod).Ok?
    ensures var info := Build(params, plat, isMethod).value;
            && Decode(info.parsestr).Some? && Decode(info.parsestr).value.units == UnitsOf(params, plat)
            && AllUnits(Decode(info.parsestr).value.units)
            && info.parselist == [Blank, KwList] + AllReceived(params, plat)
            && |AllStores(Decode(info.parsestr).value.units)| == |info.parselist| - 2
            && |Decode(info.parsestr).value.units| == |info.kwlist|
            && info.kwlist == Keywords(NamesOf(UnitParams(params)))
            && Decode(info.parsestr).value.bar == BarOf(params)
            && info.codebefore == AllConversions(params, plat)
            && info.arglist == (if isMethod then [Lead] else []) + AllPassed(params)
            && (|info.arglist| == |params| + (if isMethod then 1 else 0) <==>
                forall p :: p in params ==> !LosesArgument(p))
  {
    var parts := BuildAssembles(params, plat, isMethod);
    MatchesAlways(params, parts, isMethod);
    AllPartsServe(parts, params, plat);
    AssembleLists(params, parts, plat, isMethod);
    AllArgumentsWhen(params);
  }

  // ---------- parameters that cannot be handled ----------

  /** The exception that a parameter raises. */
  function Failure(p: Param): Option<WrapError> {
    if p.handler.NotFound? then Some(ArgTypeNotFoundError)
    else if p.handler.ReturnOnly? then Some(RuntimeError)
    else if p.handler.FileArg? && p.nullable then Some(TypeError) else None
  }

  predicate FailsFirst(params: seq<Param>, k: nat) {
    k < |params| && Failure(params[k]).Some? && forall i :: 0 <= i < k ==> Failure(params[i]).None?
  }

  /** The first such parameter ends it, and nothing else does. */
  lemma BuildFailsWhen(params: seq<Param>, plat: Platform, isMethod: bool)
    ensures Build(params, plat, isMethod).Ok? <==> forall i :: 0 <= i < |params| ==> Failure(params[i]).None?
    ensures forall k: nat :: FailsFirst(params, k) ==> Build(params, plat, isMethod) == Err(Failure(params[k]).value)
  {
    BuildStopsAtFirst(params, plat, isMethod);
    FirstFailureIs(params);
  }

  function FirstFailure(params: seq<Param>): Option<WrapError> {
    if params == [] then None else
    var before := FirstFailure(params[..|params| - 1]);
    if before.Some? then before else Failure(params[|params| - 1])
  }

  lemma {:induction false} FirstFailureIs(params: seq<Param>)
    ensures FirstFailure(params).None? <==> forall i :: 0 <= i < |params| ==> Failure(params[i]).None?
    ensures forall k: nat :: FailsFirst(params, k) ==> FirstFailure(params) == Failure(params[k])
  {
    if params != [] {
      var before := params[..|params| - 1];
      FirstFailureIs(before);
      forall k: nat | FailsFirst(params, k)
        ensures FirstFailure(params) == Failure(params[k])
      {
        if k < |before| {
          assert FailsFirst(before, k);
        }
      }
    }
  }

  lemma {:induction false} BuildStopsAtFirst(params: seq<Param>, plat: Platform, isMethod: bool)
    ensures match FirstFailure(params)
            case Some(e) => Build(params, plat, isMethod) == Err(e)
            case None => Build(params, plat, isMethod).Ok?
  {
    if params != [] {
      BuildStopsAtFirst(params[..|params| - 1], plat, isMethod);
      WriteFailsWhen(params[|params| - 1], plat);
    }
  }

  lemma WriteFailsWhen(p: Param, plat: Platform)
    ensures match Failure(p)
            case Some(e) => WriteParam(p, plat) == Err(e)
            case None => WriteParam(p, plat).Ok?
  {
  }

  // ---------- types ----------

  ghost predicate InfoStaysIn(info: Info, names: set<string>) {
    && DeclaresIn(info.varlist, names) && RunsIn(info.codebefore, names) && ArgsIn(info.arglist, names)
    && |info.parselist| >= 2 && PointsIn(info.parselist[2..], names)
  }

  lemma AddPartStaysIn(info: Info, part: Part, names: set<string>, more: set<string>)
    requires InfoStaysIn(info, names) && StaysIn(part, more)
    ensures InfoStaysIn(AddPart(info, part), names + more)
  {
    assert (info.parselist + part.pointers)[2..] == info.parselist[2..] + part.pointers;
  }

  lemma {:induction false} AssembleStaysIn(params: seq<Param>, parts: seq<Part>, isMethod: bool)
    requires AllSuit(parts, params)
    ensures InfoStaysIn(Assemble(params, parts, isMethod), AllNames(params))
    decreases |params|
  {
    if params != [] {
      var last := |params| - 1;
      AssembleStaysIn(params[..last], parts[..last], isMethod);
      assert Suits(parts[last], params[last]);
      var info := Barred(Assemble(params[..last], parts[..last], isMethod), params[last]);
      AddPartStaysIn(info, parts[last], AllNames(params[..last]), Names(params[last]));
    }
  }

  /** Declarations of other names do not matter. */
  lemma FitsFrame(plat: Platform, store: Store, pointer: ParseArg, decls: seq<Decl>, before: seq<Decl>,
                  after: seq<Decl>)
    requires pointer.AddressOf? ==> !IsDeclared(before, pointer.name) && !IsDeclared(after, pointer.name)
    ensures Fits(plat, store, pointer, before + decls + after) <==> Fits(plat, store, pointer, decls)
  {
    if pointer.AddressOf? {
      var all, k := before + decls + after, |before|;
      forall i | 0 <= i < |all|
        ensures all[i] == if i < k then before[i] else if i < k + |decls| then decls[i - k] else after[i - k - |decls|]
      {
      }
      forall i | 0 <= i < |decls|
        ensures all[k + i] == decls[i]
      {
      }
      if IsDeclared(decls, pointer.name) {
        var i :| 0 <= i < |decls| && decls[i].name == pointer.name;
        assert all[k + i].name == pointer.name;
      }
      if Fits(plat, store, pointer, all) {
        forall i | 0 <= i < |decls| && decls[i].name == pointer.name
          ensures Takes(plat, store, decls[i].ctype)
        {
          assert all[k + i].name == pointer.name;
        }
      }
    }
  }

  lemma AllFitFrame(plat: Platform, stores: seq<Store>, pointers: seq<ParseArg>, names: set<string>,
                    decls: seq<Decl>, before: seq<Decl>, after: seq<Decl>, others: set<string>)
    requires PointsIn(pointers, names) && DeclaresIn(before, others) && DeclaresIn(after, others) && names !! others
    ensures AllFit(plat, stores, pointers, before + decls + after) <==> AllFit(plat, stores, pointers, decls)
  {
    if |stores| == |pointers| {
      forall i | 0 <= i < |stores|
        ensures Fits(plat, stores[i], pointers[i], before + decls + after) <==>
                Fits(plat, stores[i], pointers[i], decls)
      {
        FitsFrame(plat, stores[i], pointers[i], decls, before, after);
      }
    }
  }

  lemma AllFitAppend(plat: Platform, s: seq<Store>, t: seq<Store>, a: seq<ParseArg>, b: seq<ParseArg>, decls: seq<Decl>)
    requires |s| == |a| && |t| == |b|
    ensures AllFit(plat, s + t, a + b, decls) <==> AllFit(plat, s, a, decls) && AllFit(plat, t, b, decls)
  {
    if AllFit(plat, s + t, a + b, decls) {
      forall i | 0 <= i < |t|
        ensures Fits(plat, t[i], b[i], decls)
      {
        assert (s + t)[|s| + i] == t[i] && (a + b)[|a| + i] == b[i];
        assert Fits(plat, (s + t)[|s| + i], (a + b)[|a| + i], decls);
      }
      forall i | 0 <= i < |s|
        ensures Fits(plat, s[i], a[i], decls)
      {
        assert Fits(plat, (s + t)[i], (a + b)[i], decls);
      }
    }
  }

  ghost predicate WellTyped(info: Info, plat: Platform)
    requires WellFormed(info)
  {
    AllFit(plat, AllStores(Decode(info.parsestr).value.units), info.parselist[2..], info.varlist)
  }

  /** What a part with a unit adds to the stores and to the pointers. */
  lemma PartAdds(info: Info, p: Param, part: Part)
    requires WellFormed(info) && BringsUnit(part, p.name)
    ensures WellFormed(AddPart(info, part))
    ensures AllStores(Decode(AddPart(info, part).parsestr).value.units) ==
            AllStores(Decode(info.parsestr).value.units) + Stores(part.codes)
    ensures AddPart(info, part).parselist[2..] == info.parselist[2..] + part.pointers
  {
    PartExtends(info, p, part);
    AllStoresSnoc(Decode(info.parsestr).value.units, part.codes);
  }

  lemma WellTypedStep(info: Info, p: Param, part: Part, plat: Platform, names: set<string>)
    requires WellFormed(info) && InfoStaysIn(info, names) && StaysIn(part, Names(p)) && names !! Names(p)
    requires BringsUnit(part, p.name) && WellFormed(AddPart(info, part))
    ensures WellTyped(AddPart(info, part), plat) <==>
            WellTyped(info, plat) && AllFit(plat, Stores(part.codes), part.pointers, part.decls)
  {
    PartAdds(info, p, part);
    AllFitTogether(plat, AllStores(Decode(info.parsestr).value.units), Stores(part.codes), info.parselist[2..],
                   part.pointers, info.varlist, part.decls, names, Names(p));
  }

  lemma AllFitTogether(plat: Platform, s: seq<Store>, t: seq<Store>, a: seq<ParseArg>, b: seq<ParseArg>,
                       decls: seq<Decl>, more: seq<Decl>, names: set<string>, others: set<string>)
    requires |s| == |a| && |t| == |b| && names !! others
    requires PointsIn(a, names) && DeclaresIn(decls, names) && PointsIn(b, others) && DeclaresIn(more, others)
    ensures AllFit(plat, s + t, a + b, decls + more) <==> AllFit(plat, s, a, decls) && AllFit(plat, t, b, more)
  {
    AllFitAppend(plat, s, t, a, b, decls + more);
    AllFitFrame(plat, s, a, names, decls, [], more, others);
    AllFitFrame(plat, t, b, others, more, decls, [], names);
    assert [] + decls + more == decls + more && decls + more + [] == decls + more;
  }

  lemma WellTypedEmptyStep(info: Info, p: Param, part: Part, plat: Platform, names: set<string>)
    requires WellFormed(info) && InfoStaysIn(info, names) && StaysIn(part, Names(p)) && names !! Names(p)
    requires part.codes == "" && part.pointers == [] && part.keywords == []
    ensures WellFormed(AddPart(info, part)) && (WellTyped(AddPart(info, part), plat) <==> WellTyped(info, plat))
  {
    var units := Decode(info.parsestr).value.units;
    EmptyPartExtends(info, part);
    AllFitFrame(plat, AllStores(units), info.parselist[2..], names, info.varlist, [], part.decls, Names(p));
    assert [] + info.varlist + part.decls == info.varlist + part.decls;
  }

  lemma WellTypedNext(info: Info, p: Param, part: Part, plat: Platform, names: set<string>)
    requires WellFormed(info) && InfoStaysIn(info, names) && names !! Names(p) && Suits(part, p)
    ensures WellFormed(AddPart(Barred(info, p), part))
    ensures WellTyped(AddPart(Barred(info, p), part), plat) <==>
            WellTyped(info, plat) && (HasUnit(p) ==> AllFit(plat, Stores(part.codes), part.pointers, part.decls))
  {
    BarredIsWellFormed(info, p);
    if HasUnit(p) {
      PartExtends(Barred(info, p), p, part);
      WellTypedStep(Barred(info, p), p, part, plat, names);
    } else {
      WellTypedEmptyStep(Barred(info, p), p, part, plat, names);
    }
  }

  /** The parts with a unit have pointers that fit it. */
  ghost predicate PartsFit(params: seq<Param>, parts: seq<Part>, plat: Platform)
    requires AllSuit(parts, params)
  {
    forall k :: 0 <= k < |params| && HasUnit(params[k]) ==>
      AllFit(plat, Stores(parts[k].codes), parts[k].pointers, parts[k].decls)
  }

  lemma {:induction false} AssembleWellTypedWhen(params: seq<Param>, parts: seq<Part>, plat: Platform, isMethod: bool)
    requires AllSuit(parts, params) && Apart(params)
    ensures WellFormed(Assemble(params, parts, isMethod))
    ensures WellTyped(Assemble(params, parts, isMethod), plat) <==> PartsFit(params, parts, plat)
    decreases |params|
  {
    MatchesAlways(params, parts, isMethod);
    if params != [] {
      var last := |params| - 1;
      var before, done := params[..last], parts[..last];
      AssembleWellTypedWhen(before, done, plat, isMethod);
      AssembleStaysIn(before, done, isMethod);
      assert Suits(parts[last], params[last]);
      WellTypedNext(Assemble(before, done, isMethod), params[last], parts[last], plat, AllNames(before));
      PartsFitSnoc(params, parts, plat);
    }
  }

  lemma PartsFitSnoc(params: seq<Param>, parts: seq<Part>, plat: Platform)
    requires AllSuit(parts, params) && params != []
    ensures var last := |params| - 1;
            && AllSuit(parts[..last], params[..last])
            && (PartsFit(params, parts, plat) <==>
                PartsFit(params[..last], parts[..last], plat) &&
                (HasUnit(params[last]) ==>
                 AllFit(plat, Stores(parts[last].codes), parts[last].pointers, parts[last].decls)))
  {
    var last := |params| - 1;
    if PartsFit(params, parts, plat) {
      forall k | 0 <= k < last && HasUnit(params[k])
        ensures AllFit(plat, Stores(parts[..last][k].codes), parts[..last][k].pointers, parts[..last][k].decls)
      {
        assert HasUnit(params[k]);
      }
    }
    if PartsFit(params[..last], parts[..last], plat) {
      forall k | 0 <= k < last && HasUnit(params[k])
        ensures AllFit(plat, Stores(parts[k].codes), parts[k].pointers, parts[k].decls)
      {
        assert HasUnit(params[..last][k]);
      }
    }
  }

  /** Every pointer handed to the parser is the address of a variable of the type its unit stores, or the
      type object or converter the unit wants, exactly when no parameter is a FILE* with a default and no
      time_t is wider than an int. */
  lemma ParseCallIsWellTypedWhen(params: seq<Param>, plat: Platform, isMethod: bool)
    requires Build(params, plat, isMethod).Ok? && Apart(params)
    ensures WellFormed(Build(params, plat, isMethod).value)
    ensures WellTyped(Build(params, plat, isMethod).value, plat) <==>
            forall k :: 0 <= k < |params| ==> TypedRight(params[k], plat)
  {
    var parts := BuildAssembles(params, plat, isMethod);
    AssembleWellTypedWhen(params, parts, plat, isMethod);
    forall k | 0 <= k < |params|
      ensures HasUnit(params[k]) ==>
              (AllFit(plat, Stores(parts[k].codes), parts[k].pointers, parts[k].decls) <==> TypedRight(params[k], plat))
    {
      if HasUnit(params[k]) {
        PartsFitWhen(params[k], plat);
      }
    }
  }

  // ---------- omitted arguments ----------

  lemma {:induction false} InitialisedAppend(a: seq<Decl>, b: seq<Decl>)
    ensures Initialised(a + b) == Initialised(a) + Initialised(b)
  {
    if b == [] {
      assert a + b == a;
    } else {
      InitialisedAppend(a, b[..|b| - 1]);
      assert (a + b)[..|a + b| - 1] == a + b[..|b| - 1];
    }
  }

  lemma {:induction false} InitialisedIn(decls: seq<Decl>, names: set<string>)
    requires DeclaresIn(decls, names)
    ensures Initialised(decls) <= names
  {
    if decls != [] {
      InitialisedIn(decls[..|decls| - 1], names);
    }
  }

  lemma {:induction false} TargetsIn(pointers: seq<ParseArg>, names: set<string>)
    requires PointsIn(pointers, names)
    ensures Targets(pointers) <= names
  {
    if pointers != [] {
      TargetsIn(pointers[..|pointers| - 1], names);
    }
  }

  lemma {:induction false} AssignedIn(code: seq<Stmt>, names: set<string>)
    requires RunsIn(code, names)
    ensures Assigned(code) <= names
  {
    if code != [] {
      AssignedIn(code[..|code| - 1], names);
    }
  }

  lemma {:induction false} WrittenIn(units: seq<string>, pointers: seq<ParseArg>, given: set<nat>, names: set<string>)
    requires AllUnits(units) && |AllStores(units)| == |pointers| && PointsIn(pointers, names)
    ensures Written(units, pointers, given) <= names
    decreases |units|
  {
    if units != [] {
      var k := |AllStores(units[..|units| - 1])|;
      WrittenIn(units[..|units| - 1], pointers[..k], given, names);
      TargetsIn(pointers[k..], names);
    }
  }

  lemma WrittenSnoc(units: seq<string>, pointers: seq<ParseArg>, u: string, more: seq<ParseArg>, given: set<nat>)
    requires AllUnits(units) && |AllStores(units)| == |pointers| && IsUnit(u) && |Stores(u)| == |more|
    ensures AllUnits(units + [u]) && |AllStores(units + [u])| == |pointers + more|
    ensures Written(units + [u], pointers + more, given) ==
            Written(units, pointers, given) + if |units| in given then Targets(more) else {}
  {
    AllStoresSnoc(units, u);
    assert (units + [u])[..|units|] == units;
    assert (pointers + more)[..|pointers|] == pointers && (pointers + more)[|pointers|..] == more;
  }

  lemma {:induction false} AssignedAppend(a: seq<Stmt>, b: seq<Stmt>)
    ensures Assigned(a + b) == Assigned(a) + Assigned(b)
  {
    if b == [] {
      assert a + b == a;
    } else {
      AssignedAppend(a, b[..|b| - 1]);
      assert (a + b)[..|a + b| - 1] == a + b[..|b| - 1];
    }
  }

  lemma {:induction false} RunsAppend(defined: set<string>, a: seq<Stmt>, b: seq<Stmt>)
    ensures Runs(defined, a + b) <==> Runs(defined, a) && Runs(defined + Assigned(a), b)
  {
    if b == [] {
      assert a + b == a;
    } else {
      var c := b[..|b| - 1];
      RunsAppend(defined, a, c);
      AssignedAppend(a, c);
      assert (a + b)[..|a + b| - 1] == a + c;
      assert defined + (Assigned(a) + Assigned(c)) == defined + Assigned(a) + Assigned(c);
    }
  }

  /** Code looks only at its own names. */
  lemma {:induction false} RunsFrame(defined: set<string>, others: set<string>, code: seq<Stmt>, names: set<string>)
    requires RunsIn(code, names) && others !! names
    ensures Runs(defined + others, code) <==> Runs(defined, code)
  {
    if code != [] {
      RunsFrame(defined, others, code[..|code| - 1], names);
    }
  }

  lemma CallFrame(defined: set<string>, others: set<string>, args: seq<CArg>, names: set<string>)
    requires ArgsIn(args, names) && others !! names
    ensures CallReads(defined + others, args) <==> CallReads(defined, args)
  {
  }

  lemma CallAppend(defined: set<string>, a: seq<CArg>, b: seq<CArg>)
    ensures CallReads(defined, a + b) <==> CallReads(defined, a) && CallReads(defined, b)
  {
    if CallReads(defined, a + b) {
      assert forall i :: 0 <= i < |a| ==> (a + b)[i] == a[i];
      assert forall i :: 0 <= i < |b| ==> (a + b)[|a| + i] == b[i];
    }
  }

  /** Two blocks of code over different names run independently of each other. */
  lemma RunsApart(d: set<string>, e: set<string>, code: seq<Stmt>, more: seq<Stmt>, args: seq<CArg>,
                  moreArgs: seq<CArg>, names: set<string>, others: set<string>)
    requires d <= names && e <= others && names !! others
    requires RunsIn(code, names) && ArgsIn(args, names) && RunsIn(more, others) && ArgsIn(moreArgs, others)
    ensures Runs(d + e, code + more) && CallReads(d + e + Assigned(code + more), args + moreArgs) <==>
            Runs(d, code) && CallReads(d + Assigned(code), args) && Runs(e, more) &&
            CallReads(e + Assigned(more), moreArgs)
  {
    AssignedIn(code, names);
    AssignedIn(more, others);
    RunsAppend(d + e, code, more);
    AssignedAppend(code, more);
    RunsFrame(d, e, code, names);
    assert d + e + Assigned(code) == e + (d + Assigned(code));
    RunsFrame(e, d + Assigned(code), more, others);
    var mine, yours := d + Assigned(code), e + Assigned(more);
    assert d + e + (Assigned(code) + Assigned(more)) == mine + yours == yours + mine;
    CallAppend(mine + yours, args, moreArgs);
    CallFrame(mine, yours, args, names);
    CallFrame(yours, mine, moreArgs, others);
  }

  lemma FaultlessStep(info: Info, p: Param, part: Part, given: set<nat>, names: set<string>)
    requires WellFormed(info) && InfoStaysIn(info, names) && StaysIn(part, Names(p)) && names !! Names(p)
    requires BringsUnit(part, p.name)
    ensures WellFormed(AddPart(info, part))
    ensures Faultless(AddPart(info, part), given) <==>
            Faultless(info, given) && PartRuns(part, |Decode(info.parsestr).value.units| in given)
  {
    PartExtends(info, p, part);
    var units, pointers := Decode(info.parsestr).value.units, info.parselist[2..];
    assert (info.parselist + part.pointers)[2..] == pointers + part.pointers;
    var passed := |units| in given;
    var d := Initialised(info.varlist) + Written(units, pointers, given);
    var e := Initialised(part.decls) + if passed then Targets(part.pointers) else {};
    InitialisedIn(info.varlist, names);
    InitialisedIn(part.decls, Names(p));
    WrittenIn(units, pointers, given, names);
    TargetsIn(part.pointers, Names(p));
    InitialisedAppend(info.varlist, part.decls);
    WrittenSnoc(units, pointers, part.codes, part.pointers, given);
    assert Initialised(info.varlist + part.decls) + Written(units + [part.codes], pointers + part.pointers, given) ==
           d + e;
    RunsApart(d, e, info.codebefore, part.code, info.arglist, part.args, names, Names(p));
  }

  lemma FaultlessEmptyStep(info: Info, p: Param, part: Part, given: set<nat>, names: set<string>)
    requires WellFormed(info) && InfoStaysIn(info, names) && StaysIn(part, Names(p)) && names !! Names(p)
    requires part.codes == "" && part.pointers == [] && part.keywords == []
    ensures WellFormed(AddPart(info, part))
    ensures Faultless(AddPart(info, part), given) <==> Faultless(info, given) && PartRuns(part, false)
  {
    EmptyPartExtends(info, part);
    var units, pointers := Decode(info.parsestr).value.units, info.parselist[2..];
    var d := Initialised(info.varlist) + Written(units, pointers, given);
    InitialisedIn(info.varlist, names);
    InitialisedIn(part.decls, Names(p));
    WrittenIn(units, pointers, given, names);
    InitialisedAppend(info.varlist, part.decls);
    assert Initialised(info.varlist + part.decls) + Written(units, pointers, given) == d + Initialised(part.decls);
    assert Initialised(part.decls) + {} == Initialised(part.decls);
    RunsApart(d, Initialised(part.decls), info.codebefore, part.code, info.arglist, part.args, names, Names(p));
  }

  lemma BarredIsFaultless(info: Info, p: Param, given: set<nat>)
    requires WellFormed(info)
    ensures WellFormed(Barred(info, p)) && (Faultless(Barred(info, p), given) <==> Faultless(info, given))
  {
    BarredIsWellFormed(info, p);
  }

  lemma FaultlessNext(info: Info, p: Param, part: Part, given: set<nat>, names: set<string>)
    requires WellFormed(info) && InfoStaysIn(info, names) && names !! Names(p) && Suits(part, p)
    ensures WellFormed(AddPart(Barred(info, p), part))
    ensures Faultless(AddPart(Barred(info, p), part), given) <==>
            Faultless(info, given) && PartRuns(part, HasUnit(p) && |Decode(info.parsestr).value.units| in given)
  {
    BarredIsWellFormed(info, p);
    BarredIsFaultless(info, p, given);
    if HasUnit(p) {
      FaultlessStep(Barred(info, p), p, part, given, names);
    } else {
      FaultlessEmptyStep(Barred(info, p), p, part, given, names);
    }
  }

  /** The argument of the parameter at `k` is passed. */
  predicate IsPassed(params: seq<Param>, k: nat, given: set<nat>)
    requires k < |params|
  {
    HasUnit(params[k]) && |UnitParams(params[..k])| in given
  }

  ghost predicate AllPartsRun(params: seq<Param>, parts: seq<Part>, given: set<nat>)
    requires |parts| == |params|
  {
    forall k :: 0 <= k < |params| ==> PartRuns(parts[k], IsPassed(params, k, given))
  }

  lemma AllPartsRunSnoc(params: seq<Param>, parts: seq<Part>, given: set<nat>)
    requires |parts| == |params| > 0
    ensures var last := |params| - 1;
            AllPartsRun(params, parts, given) <==>
            AllPartsRun(params[..last], parts[..last], given) && PartRuns(parts[last], IsPassed(params, last, given))
  {
    var last := |params| - 1;
    forall k | 0 <= k < last
      ensures IsPassed(params[..last], k, given) == IsPassed(params, k, given) && parts[..last][k] == parts[k]
    {
      assert params[..last][..k] == params[..k];
    }
    if AllPartsRun(params[..last], parts[..last], given) {
      forall k | 0 <= k < last
        ensures PartRuns(parts[k], IsPassed(params, k, given))
      {
        assert PartRuns(parts[..last][k], IsPassed(params[..last], k, given));
      }
    }
  }

  lemma {:induction false} AssembleFaultlessWhen(params: seq<Param>, parts: seq<Part>, isMethod: bool, given: set<nat>)
    requires AllSuit(parts, params) && Apart(params)
    ensures WellFormed(Assemble(params, parts, isMethod))
    ensures Faultless(Assemble(params, parts, isMethod), given) <==> AllPartsRun(params, parts, given)
    decreases |params|
  {
    MatchesAlways(params, parts, isMethod);
    if params != [] {
      var last := |params| - 1;
      var before, done := params[..last], parts[..last];
      AssembleFaultlessWhen(before, done, isMethod, given);
      MatchesAlways(before, done, isMethod);
      AssembleStaysIn(before, done, isMethod);
      assert Suits(parts[last], params[last]);
      FaultlessNext(Assemble(before, done, isMethod), params[last], parts[last], given, AllNames(before));
      AllPartsRunSnoc(params, parts, given);
    }
  }

  /** Every argument that is not passed belongs to a parameter that may be left out. */
  ghost predicate OmitsSafely(params: seq<Param>, given: set<nat>) {
    forall k :: 0 <= k < |params| ==> IsPassed(params, k, given) || OmitSafe(params[k])
  }

  /** The wrapper reads only what is set exactly when the call omits nothing that it must not. */
  lemma FaultlessWhen(params: seq<Param>, plat: Platform, isMethod: bool, given: set<nat>)
    requires Build(params, plat, isMethod).Ok? && Apart(params)
    ensures WellFormed(Build(params, plat, isMethod).value)
    ensures Faultless(Build(params, plat, isMethod).value, given) <==> OmitsSafely(params, given)
  {
    var parts := BuildAssembles(params, plat, isMethod);
    AssembleFaultlessWhen(params, parts, isMethod, given);
    forall k | 0 <= k < |params|
      ensures PartRuns(parts[k], IsPassed(params, k, given)) <==> IsPassed(params, k, given) || OmitSafe(params[k])
    {
      PartRunsWhen(params[k], plat, IsPassed(params, k, given));
    }
  }

  function Below(n: nat): set<nat> {
    if n == 0 then {} else Below(n - 1) + {n - 1}
  }

  lemma {:induction false} BelowHolds(n: nat, u: nat)
    ensures u in Below(n) <==> u < n
  {
    if n > 0 {
      BelowHolds(n - 1, u);
    }
  }

  lemma {:induction false} UnitParamsGrow(params: seq<Param>, k: nat)
    requires k <= |params|
    ensures |UnitParams(params[..k])| <= |UnitParams(params)|
    ensures k < |params| && HasUnit(params[k]) ==> |UnitParams(params[..k])| < |UnitParams(params)|
    decreases |params|
  {
    if k < |params| {
      var before := params[..|params| - 1];
      assert k < |before| ==> params[..k] == before[..k];
      if k < |before| {
        UnitParamsGrow(before, k);
      } else {
        assert params[..k] == before;
      }
    } else {
      assert params[..k] == params;
    }
  }

  /** How many arguments every call that the parser accepts passes: those before the bar. */
  function Required(info: Info): nat
    requires Decode(info.parsestr).Some?
  {
    var f := Decode(info.parsestr).value;
    if f.bar.Some? then f.bar.value else |f.units|
  }

  /** All calls that pass the first `required` arguments omit only what may be left out exactly when
      everything behind the first default may be. */
  lemma OptionalsDecide(params: seq<Param>, required: nat)
    requires required == |UnitParams(params[..FirstDefault(params)])|
    ensures (forall given: set<nat> :: PassesFirst(required, given) ==> OmitsSafely(params, given)) <==>
            (forall k :: FirstDefault(params) <= k < |params| ==> OmitSafe(params[k]))
  {
    var first := FirstDefault(params);
    if forall k :: first <= k < |params| ==> OmitSafe(params[k]) {
      forall given: set<nat> | PassesFirst(required, given)
        ensures OmitsSafely(params, given)
      {
        EarlyArePassed(params, first, given);
      }
    }
    if forall given: set<nat> :: PassesFirst(required, given) ==> OmitsSafely(params, given) {
      BelowPasses(required);
      assert OmitsSafely(params, Below(required));
      forall k | first <= k < |params|
        ensures OmitSafe(params[k])
      {
        LateAreOmitted(params, first, k);
        assert IsPassed(params, k, Below(required)) || OmitSafe(params[k]);
      }
    }
  }

  ghost predicate PassesFirst(required: nat, given: set<nat>) {
    forall u: nat :: u < required ==> u in given
  }

  lemma BelowPasses(n: nat)
    ensures PassesFirst(n, Below(n))
  {
    forall u: nat | u < n
      ensures u in Below(n)
    {
      BelowHolds(n, u);
    }
  }

  lemma LateAreOmitted(params: seq<Param>, first: nat, k: nat)
    requires first <= k < |params|
    ensures !IsPassed(params, k, Below(|UnitParams(params[..first])|))
  {
    assert params[..k][..first] == params[..first];
    UnitParamsGrow(params[..k], first);
    BelowHolds(|UnitParams(params[..first])|, |UnitParams(params[..k])|);
  }

  /** A parameter before the first default has its argument passed, or needs none. */
  lemma EarlyArePassed(params: seq<Param>, first: nat, given: set<nat>)
    requires first <= |params| && PassesFirst(|UnitParams(params[..first])|, given)
    ensures forall k :: 0 <= k < first ==> IsPassed(params, k, given) || OmitSafe(params[k])
  {
    forall k | 0 <= k < first
      ensures IsPassed(params, k, given) || OmitSafe(params[k])
    {
      assert params[..first][..k] == params[..k];
      UnitParamsGrow(params[..first], k);
    }
  }

  /** No call that the parser accepts makes the wrapper read a variable that was never set, exactly when
      every parameter from the first default on may be left out. */
  lemma OmittedArgumentsAreSafeWhen(params: seq<Param>, plat: Platform, isMethod: bool)
    requires Build(params, plat, isMethod).Ok? && Apart(params)
    ensures WellFormed(Build(params, plat, isMethod).value)
    ensures var info := Build(params, plat, isMethod).value;
            (forall given: set<nat> :: PassesFirst(Required(info), given) ==> Faultless(info, given)) <==>
            (forall k :: FirstDefault(params) <= k < |params| ==> OmitSafe(params[k]))
  {
    var info := Build(params, plat, isMethod).value;
    RequiredAre(params, plat, isMethod);
    OptionalsDecide(params, Required(info));
    forall given: set<nat>
      ensures Faultless(info, given) <==> OmitsSafely(params, given)
    {
      FaultlessWhen(params, plat, isMethod, given);
    }
  }

  lemma RequiredAre(params: seq<Param>, plat: Platform, isMethod: bool)
    requires Build(params, plat, isMethod).Ok?
    ensures WellFormed(Build(params, plat, isMethod).value)
    ensures Required(Build(params, plat, isMethod).value) == |UnitParams(params[..FirstDefault(params)])|
  {
    var parts := BuildAssembles(params, plat, isMethod);
    MatchesAlways(params, parts, isMethod);
    assert params[..|params|] == params;
  }
}
