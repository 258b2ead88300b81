/**
  The core metadata of an artifact (src/artifact.c): types, functions with their
  control annotations, imports, exports and memories, as they are written,
  validated and restored.
 */
module ArtifactCore {
  import opened Common
  import opened Bytes
  import opened ArtifactWords
  import opened ArtifactRecords
  import opened ArtifactLists
  import opened DefinedTypes

  // ---------------------------------------------------------------- types

  const TYPE := [4, 4, 4, 4, 4, 4, 4, 4, 4]

  function TypeWords(t: FuncType): seq<Word> {
    [U32(Flag(t.defined)), U32(|t.params|), U32(|t.results|), U32(t.kind), U32(Flag(t.final)), U32(t.super),
     U32(t.groupCount), U32(t.groupOffset), U32(|t.fields|)]
  }

  function PutType(t: FuncType): seq<Byte> {
    PutWords(TypeWords(t))
      + (PutRecords(t.params, TypedWords) + (PutRecords(t.results, TypedWords) + PutRecords(t.fields, FieldWords)))
  }

  /** `read_type_layout` of type `i` of `n`, which both readers use. */
  predicate LayoutSound(f: seq<nat>, i: nat, n: nat) {
    && |f| == 9 && f[0] == 1 && f[3] <= TYPE_ARRAY && f[4] <= 1
    && (f[5] != MAX32 ==> f[5] < i)
    && f[7] <= i && f[6] > f[7] && f[6] + (i - f[7]) <= n
    && (f[3] == TYPE_FUNCTION ==> f[8] == 0) && (f[3] == TYPE_ARRAY ==> f[8] == 1)
    && (f[3] != TYPE_FUNCTION ==> f[1] == 0 && f[2] == 0)
  }

  function RestoreType(b: seq<Byte>, i: nat, n: nat): Parsed<FuncType> {
    var (f, b1) :- GetWords(b, TYPE);
    if !LayoutSound(f, i, n) then Refused
    else
      var (params, b2) :- Records(b1, f[1], TYPED, TypedFrom);
      var (results, b3) :- Records(b2, f[2], TYPED, TypedFrom);
      var (fields, b4) :- Records(b3, f[8], FIELD, FieldFrom);
      Got(FuncType(true, params, results, f[3], f[4] != 0, f[5], f[6], f[7], fields), b4)
  }

  function ReadType(b: seq<Byte>, i: nat, n: nat): Parsed<()> {
    var (f, b1) :- GetWords(b, TYPE);
    if !LayoutSound(f, i, n) then Refused
    else
      var (_, b2) :- PassAll(b1, f[1], TYPED, TypedSound);
      var (_, b3) :- PassAll(b2, f[2], TYPED, TypedSound);
      PassAll(b3, f[8], FIELD, FieldSound)
  }

  predicate TypeFits(t: FuncType) {
    && AllTypedFit(t.params) && AllTypedFit(t.results) && AllFieldsFit(t.fields)
    && t.kind <= MAX32 && t.super <= MAX32 && t.groupCount <= MAX32 && t.groupOffset <= MAX32
  }

  /** What the type section guarantees of type `i` of `n`. */
  predicate TypeLaidOut(t: FuncType, i: nat, n: nat) {
    && t.defined && t.kind <= TYPE_ARRAY && (t.super != MAX32 ==> t.super < i)
    && t.groupOffset <= i && t.groupCount > t.groupOffset && t.groupCount + (i - t.groupOffset) <= n
    && (t.kind == TYPE_FUNCTION ==> t.fields == []) && (t.kind == TYPE_ARRAY ==> |t.fields| == 1)
    && (t.kind != TYPE_FUNCTION ==> t.params == [] && t.results == [])
  }

  predicate TypeGood(t: FuncType, i: nat, n: nat) {
    TypeLaidOut(t, i, n) && AllTypedGood(t.params) && AllTypedGood(t.results) && AllFieldsGood(t.fields)
  }

  predicate TypeFine(t: FuncType, i: nat, n: nat) {
    TypeLaidOut(t, i, n) && AllTypedFine(t.params) && AllTypedFine(t.results) && AllFieldsGood(t.fields)
  }

  lemma {:induction false} TypeHead(t: FuncType, i: nat, n: nat)
    requires TypeFits(t)
    ensures var f := Values(TypeWords(t));
            && AllInRange(TypeWords(t)) && Shape(TypeWords(t)) == TYPE && |f| == 9
            && LayoutSound(f, i, n) == TypeLaidOut(t, i, n)
            && f[1] == |t.params| && f[2] == |t.results| && f[8] == |t.fields|
            && (t.defined ==> FuncType(true, t.params, t.results, f[3], f[4] != 0, f[5], f[6], f[7], t.fields) == t)
  {
  }

  lemma {:induction false} TypeBack(t: FuncType, i: nat, n: nat, rest: seq<Byte>)
    requires TypeFits(t)
    ensures RestoreType(PutType(t) + rest, i, n) == if TypeGood(t, i, n) then Got(t, rest) else Refused
    ensures ReadType(PutType(t) + rest, i, n) == if TypeFine(t, i, n) then Got((), rest) else Refused
  {
    TypeHead(t, i, n);
    hide TypeWords, LayoutSound, Records, PassAll, PutRecords, GetWords, PutWords, AllTypedFit, AllFieldsFit;
    hide AllTypedGood, AllTypedFine, AllFieldsGood, AllInRange, Shape, Values, Counted;
    var ws, ps, rs, fs := TypeWords(t), PutRecords(t.params, TypedWords), PutRecords(t.results, TypedWords),
      PutRecords(t.fields, FieldWords);
    var b3 := fs + rest;
    var b2 := rs + b3;
    var b1 := ps + b2;
    assert PutType(t) + rest == PutWords(ws) + b1;
    WordsRoundTrip(ws, b1);
    TypedList(t.params, b2);
    TypedList(t.results, b3);
    FieldsList(t.fields, rest);
  }

  /** The two readers of a type end at the same place. */
  lemma {:induction false} TypeAgree(b: seq<Byte>, i: nat, n: nat)
    ensures RestoreType(b, i, n).Got? && ReadType(b, i, n).Got? ==> RestoreType(b, i, n).rest == ReadType(b, i, n).rest
  {
    hide Records, PassAll, LayoutSound, GetWords;
    if RestoreType(b, i, n).Got? && ReadType(b, i, n).Got? {
      var h := GetWords(b, TYPE);
      RecordsAgree(h.rest, h.value[1], TYPED, TypedFrom, TypedSound);
      var p := Records(h.rest, h.value[1], TYPED, TypedFrom);
      RecordsAgree(p.rest, h.value[2], TYPED, TypedFrom, TypedSound);
      var r := Records(p.rest, h.value[2], TYPED, TypedFrom);
      RecordsAgree(r.rest, h.value[8], FIELD, FieldFrom, FieldSound);
    }
  }

  // ---------------------------------------------------------------- controls

  datatype Control = Control(kind: nat, opcode: nat, body: nat, else_: nat, end: nat, typeIndex: nat, result: Byte,
      catches: seq<Catch>)

  const CONTROL := [4, 4, 4, 4, 4, 4, 4, 4]

  function ControlWords(c: Control): seq<Word> {
    [U32(c.kind), U32(c.opcode), U32(c.body), U32(c.else_), U32(c.end), U32(c.typeIndex), U32(c.result),
     U32(|c.catches|)]
  }

  function PutControl(c: Control): seq<Byte> {
    PutWords(ControlWords(c)) + PutRecords(c.catches, CatchWords)
  }

  predicate ControlSound(f: seq<nat>, types: nat) {
    |f| == 8 && 1 <= f[0] <= 4 && f[6] <= 255 && (f[5] != MAX32 ==> f[5] < types)
  }

  function RestoreControl(b: seq<Byte>, types: nat): Parsed<Control> {
    var (f, b1) :- GetWords(b, CONTROL);
    if !ControlSound(f, types) then Refused
    else
      var (catches, b2) :- Records(b1, f[7], CATCH, CatchFrom);
      Got(Control(f[0], f[1], f[2], f[3], f[4], f[5], f[6], catches), b2)
  }

  function ReadControl(b: seq<Byte>, types: nat): Parsed<()> {
    var (f, b1) :- GetWords(b, CONTROL);
    if !ControlSound(f, types) then Refused else PassAll(b1, f[7], CATCH, CatchSound)
  }

  predicate ControlFits(c: Control) {
    && c.kind <= MAX32 && c.opcode <= MAX32 && c.body <= MAX32 && c.else_ <= MAX32 && c.end <= MAX32
    && c.typeIndex <= MAX32
    && AllCatchesFit(c.catches)
  }

  predicate ControlGood(c: Control, types: nat) {
    1 <= c.kind <= 4 && (c.typeIndex != MAX32 ==> c.typeIndex < types) && AllCatchesGood(c.catches)
  }

  lemma {:induction false} ControlHead(c: Control, types: nat)
    requires ControlFits(c)
    ensures var f := Values(ControlWords(c));
            && AllInRange(ControlWords(c)) && Shape(ControlWords(c)) == CONTROL && |f| == 8 && f[7] == |c.catches|
            && ControlSound(f, types) == (1 <= c.kind <= 4 && (c.typeIndex != MAX32 ==> c.typeIndex < types))
            && f[6] <= 255 && Control(f[0], f[1], f[2], f[3], f[4], f[5], f[6], c.catches) == c
  {
  }

  lemma {:induction false} ControlBack(c: Control, types: nat, rest: seq<Byte>)
    requires ControlFits(c)
    ensures RestoreControl(PutControl(c) + rest, types) == if ControlGood(c, types) then Got(c, rest) else Refused
    ensures ReadControl(PutControl(c) + rest, types) == if ControlGood(c, types) then Got((), rest) else Refused
  {
    ControlHead(c, types);
    hide ControlWords, ControlSound, Records, PassAll, PutRecords, GetWords, PutWords, AllCatchesGood, AllCatchesFit;
    hide AllInRange, Shape, Values, Counted;
    var b1 := PutRecords(c.catches, CatchWords) + rest;
    assert PutControl(c) + rest == PutWords(ControlWords(c)) + b1;
    WordsRoundTrip(ControlWords(c), b1);
    CatchesList(c.catches, rest);
  }

  lemma {:induction false} ControlAgree(b: seq<Byte>, types: nat)
    ensures RestoreControl(b, types).Got? && ReadControl(b, types).Got? ==>
              RestoreControl(b, types).rest == ReadControl(b, types).rest
  {
    hide Records, PassAll, ControlSound, GetWords;
    if RestoreControl(b, types).Got? {
      var h := GetWords(b, CONTROL);
      RecordsAgree(h.rest, h.value[7], CATCH, CatchFrom, CatchSound);
    }
  }

  function PutControls(cs: seq<Control>): seq<Byte> { PutMany(cs, 0, PutControl) }

  function BuildControl(types: nat): (nat, seq<Byte>) -> Parsed<Control> { (i, b) => RestoreControl(b, types) }
  function PassControl(types: nat): (nat, seq<Byte>) -> Parsed<()> { (i, b) => ReadControl(b, types) }

  function RestoreControls(b: seq<Byte>, n: nat, types: nat): Parsed<seq<Control>> {
    Many(b, 0, n, BuildControl(types))
  }

  function ReadControls(b: seq<Byte>, n: nat, types: nat): Parsed<()> {
    PassMany(b, 0, n, PassControl(types))
  }

  predicate AllControlsFit(cs: seq<Control>) {
    Counted(cs) && forall c :: c in cs ==> ControlFits(c)
  }

  predicate AllControlsGood(cs: seq<Control>, types: nat) {
    forall c :: c in cs ==> ControlGood(c, types)
  }

  lemma {:induction false} ControlsList(cs: seq<Control>, types: nat, rest: seq<Byte>)
    requires AllControlsFit(cs)
    ensures RestoreControls(PutControls(cs) + rest, |cs|, types) ==
              if AllControlsGood(cs, types) then Got(cs, rest) else Refused
    ensures ReadControls(PutControls(cs) + rest, |cs|, types) ==
              if AllControlsGood(cs, types) then Got((), rest) else Refused
  {
    hide RestoreControl, ReadControl, PutControl, ControlFits, ControlGood;
    var get, pass := BuildControl(types), PassControl(types);
    var good := (i: nat, c: Control) => ControlGood(c, types);
    forall i: nat, s | i < |cs|
      ensures Trips(cs[i], i, s, PutControl, get, good, pass, good)
    {
      ControlBack(cs[i], types, s);
    }
    ManyRoundTrip(cs, 0, PutControl, get, good, pass, good, rest);
    assert AllOf(cs, 0, good) <==> AllControlsGood(cs, types);
    assert cs[0..] == cs;
  }

  lemma {:induction false} ControlsAgree(b: seq<Byte>, n: nat, types: nat)
    ensures RestoreControls(b, n, types).Got? && ReadControls(b, n, types).Got? ==>
              RestoreControls(b, n, types).rest == ReadControls(b, n, types).rest
  {
    hide RestoreControl, ReadControl;
    var get, pass := BuildControl(types), PassControl(types);
    forall i: nat, s
      ensures get(i, s).Got? && pass(i, s).Got? ==> get(i, s).rest == pass(i, s).rest
    {
      ControlAgree(s, types);
    }
    ManyAgree(b, 0, n, get, pass);
  }

  // ---------------------------------------------------------------- functions

  datatype Function = Function(typeIndex: nat, imported: bool, locals: seq<Typed>, code: Span, controls: seq<Control>)

  const FUNCTION := [4, 4, 4, 8, 4, 4]

  function FunctionWords(x: Function): seq<Word> {
    [U32(x.typeIndex), U32(Flag(x.imported)), U32(|x.locals|), U64(Offset(x.code.at)), U32(x.code.size),
     U32(|x.controls|)]
  }

  function PutFunction(x: Function): seq<Byte> {
    PutWords(FunctionWords(x)) + (PutRecords(x.locals, TypedWords) + PutControls(x.controls))
  }

  predicate FunctionSound(f: seq<nat>, types: nat, source: nat) {
    |f| == 6 && f[0] < types && f[1] <= 1 && SpanSound(f[3], f[4], source)
  }

  function RestoreFunction(b: seq<Byte>, types: nat, source: nat): Parsed<Function> {
    var (f, b1) :- GetWords(b, FUNCTION);
    if !FunctionSound(f, types, source) then Refused
    else
      var (locals, b2) :- Records(b1, f[2], TYPED, TypedFrom);
      var (controls, b3) :- RestoreControls(b2, f[5], types);
      Got(Function(f[0], f[1] != 0, locals, SpanFrom(f[3], f[4]), controls), b3)
  }

  function ReadFunction(b: seq<Byte>, types: nat, source: nat): Parsed<()> {
    var (f, b1) :- GetWords(b, FUNCTION);
    if !FunctionSound(f, types, source) then Refused
    else
      var (_, b2) :- PassAll(b1, f[2], TYPED, TypedSound);
      ReadControls(b2, f[5], types)
  }

  predicate FunctionFits(x: Function, source: nat) {
    x.typeIndex <= MAX32 && AllTypedFit(x.locals) && SpanFits(x.code, source) && AllControlsFit(x.controls)
  }

  predicate FunctionGood(x: Function, types: nat) {
    x.typeIndex < types && AllTypedGood(x.locals) && AllControlsGood(x.controls, types)
  }

  predicate FunctionFine(x: Function, types: nat) {
    x.typeIndex < types && AllTypedFine(x.locals) && AllControlsGood(x.controls, types)
  }

  lemma {:induction false} FunctionHead(x: Function, types: nat, source: nat)
    requires FunctionFits(x, source)
    ensures var f := Values(FunctionWords(x));
            && AllInRange(FunctionWords(x)) && Shape(FunctionWords(x)) == FUNCTION && |f| == 6
            && FunctionSound(f, types, source) == (x.typeIndex < types)
            && f[2] == |x.locals| && f[5] == |x.controls|
            && Function(f[0], f[1] != 0, x.locals, SpanFrom(f[3], f[4]), x.controls) == x
  {
    SpanBack(x.code, source);
    hide SpanSound, SpanFrom, Offset;
  }

  lemma {:induction false} FunctionBack(x: Function, types: nat, source: nat, rest: seq<Byte>)
    requires FunctionFits(x, source)
    ensures RestoreFunction(PutFunction(x) + rest, types, source) ==
              if FunctionGood(x, types) then Got(x, rest) else Refused
    ensures ReadFunction(PutFunction(x) + rest, types, source) ==
              if FunctionFine(x, types) then Got((), rest) else Refused
  {
    FunctionHead(x, types, source);
    hide FunctionWords, FunctionSound, Records, PassAll, PutRecords, GetWords, PutWords, AllTypedFit, AllTypedGood;
    hide AllTypedFine, AllInRange, Shape, Values, Counted;
    hide PutControls, RestoreControls, ReadControls, AllControlsFit, AllControlsGood, SpanFrom, SpanFits;
    var b2 := PutControls(x.controls) + rest;
    var b1 := PutRecords(x.locals, TypedWords) + b2;
    assert PutFunction(x) + rest == PutWords(FunctionWords(x)) + b1;
    WordsRoundTrip(FunctionWords(x), b1);
    TypedList(x.locals, b2);
    ControlsList(x.controls, types, rest);
  }

  lemma {:induction false} FunctionAgree(b: seq<Byte>, types: nat, source: nat)
    ensures RestoreFunction(b, types, source).Got? && ReadFunction(b, types, source).Got? ==>
              RestoreFunction(b, types, source).rest == ReadFunction(b, types, source).rest
  {
    hide Records, PassAll, FunctionSound, GetWords, RestoreControls, ReadControls;
    if RestoreFunction(b, types, source).Got? {
      var h := GetWords(b, FUNCTION);
      RecordsAgree(h.rest, h.value[2], TYPED, TypedFrom, TypedSound);
      ControlsAgree(Records(h.rest, h.value[2], TYPED, TypedFrom).rest, h.value[5], types);
    }
  }

  // ---------------------------------------------------------------- the lists of types and functions

  function PutTypes(ts: seq<FuncType>): seq<Byte> { PutMany(ts, 0, PutType) }
  function PutFunctions(xs: seq<Function>): seq<Byte> { PutMany(xs, 0, PutFunction) }

  function BuildType(n: nat): (nat, seq<Byte>) -> Parsed<FuncType> { (i: nat, b) => RestoreType(b, i, n) }
  function PassType(n: nat): (nat, seq<Byte>) -> Parsed<()> { (i: nat, b) => ReadType(b, i, n) }
  function BuildFunction(types: nat, source: nat): (nat, seq<Byte>) -> Parsed<Function> {
    (i, b) => RestoreFunction(b, types, source)
  }
  function PassFunction(types: nat, source: nat): (nat, seq<Byte>) -> Parsed<()> {
    (i, b) => ReadFunction(b, types, source)
  }

  function RestoreTypes(b: seq<Byte>, n: nat): (r: Parsed<seq<FuncType>>)
    ensures r.Got? ==> |r.value| == n
  {
    Many(b, 0, n, BuildType(n))
  }

  function ReadTypes(b: seq<Byte>, n: nat): Parsed<()> {
    PassMany(b, 0, n, PassType(n))
  }

  function RestoreFunctions(b: seq<Byte>, n: nat, types: nat, source: nat): (r: Parsed<seq<Function>>)
    ensures r.Got? ==> |r.value| == n
  {
    Many(b, 0, n, BuildFunction(types, source))
  }

  function ReadFunctions(b: seq<Byte>, n: nat, types: nat, source: nat): Parsed<()> {
    PassMany(b, 0, n, PassFunction(types, source))
  }

  predicate AllTypesFit(ts: seq<FuncType>) {
    Counted(ts) && forall t :: t in ts ==> TypeFits(t)
  }

  predicate AllTypesGood(ts: seq<FuncType>) {
    forall i :: 0 <= i < |ts| ==> TypeGood(ts[i], i, |ts|)
  }

  predicate AllTypesFine(ts: seq<FuncType>) {
    forall i :: 0 <= i < |ts| ==> TypeFine(ts[i], i, |ts|)
  }

  lemma {:induction false} TypesList(ts: seq<FuncType>, rest: seq<Byte>)
    requires AllTypesFit(ts)
    ensures RestoreTypes(PutTypes(ts) + rest, |ts|) == if AllTypesGood(ts) then Got(ts, rest) else Refused
    ensures ReadTypes(PutTypes(ts) + rest, |ts|) == if AllTypesFine(ts) then Got((), rest) else Refused
  {
    hide RestoreType, ReadType, PutType, TypeFits, TypeGood, TypeFine;
    var get, pass, n := BuildType(|ts|), PassType(|ts|), |ts|;
    var good, fine := (i: nat, t: FuncType) => TypeGood(t, i, n), (i: nat, t: FuncType) => TypeFine(t, i, n);
    forall i: nat, s | i < |ts|
      ensures Trips(ts[i], i, s, PutType, get, good, pass, fine)
    {
      TypeBack(ts[i], i, n, s);
    }
    ManyRoundTrip(ts, 0, PutType, get, good, pass, fine, rest);
    assert AllOf(ts, 0, good) <==> AllTypesGood(ts);
    assert AllOf(ts, 0, fine) <==> AllTypesFine(ts);
    assert ts[0..] == ts;
  }

  lemma {:induction false} TypesAgree(b: seq<Byte>, n: nat)
    ensures RestoreTypes(b, n).Got? && ReadTypes(b, n).Got? ==> RestoreTypes(b, n).rest == ReadTypes(b, n).rest
  {
    hide RestoreType, ReadType;
    var get, pass := BuildType(n), PassType(n);
    forall i: nat, s
      ensures get(i, s).Got? && pass(i, s).Got? ==> get(i, s).rest == pass(i, s).rest
    {
      TypeAgree(s, i, n);
    }
    ManyAgree(b, 0, n, get, pass);
  }

  predicate AllFunctionsFit(xs: seq<Function>, source: nat) {
    Counted(xs) && forall x :: x in xs ==> FunctionFits(x, source)
  }

  predicate AllFunctionsGood(xs: seq<Function>, types: nat) {
    forall x :: x in xs ==> FunctionGood(x, types)
  }

  predicate AllFunctionsFine(xs: seq<Function>, types: nat) {
    forall x :: x in xs ==> FunctionFine(x, types)
  }

  lemma {:induction false} FunctionsList(xs: seq<Function>, types: nat, source: nat, rest: seq<Byte>)
    requires AllFunctionsFit(xs, source)
    ensures RestoreFunctions(PutFunctions(xs) + rest, |xs|, types, source) ==
              if AllFunctionsGood(xs, types) then Got(xs, rest) else Refused
    ensures ReadFunctions(PutFunctions(xs) + rest, |xs|, types, source) ==
              if AllFunctionsFine(xs, types) then Got((), rest) else Refused
  {
    hide RestoreFunction, ReadFunction, PutFunction, FunctionFits, FunctionGood, FunctionFine;
    var get, pass := BuildFunction(types, source), PassFunction(types, source);
    var good, fine := (i: nat, x: Function) => FunctionGood(x, types), (i: nat, x: Function) => FunctionFine(x, types);
    forall i: nat, s | i < |xs|
      ensures Trips(xs[i], i, s, PutFunction, get, good, pass, fine)
    {
      FunctionBack(xs[i], types, source, s);
    }
    ManyRoundTrip(xs, 0, PutFunction, get, good, pass, fine, rest);
    assert AllOf(xs, 0, good) <==> AllFunctionsGood(xs, types);
    assert AllOf(xs, 0, fine) <==> AllFunctionsFine(xs, types);
    assert xs[0..] == xs;
  }

  lemma {:induction false} FunctionsAgree(b: seq<Byte>, n: nat, types: nat, source: nat)
    ensures RestoreFunctions(b, n, types, source).Got? && ReadFunctions(b, n, types, source).Got? ==>
              RestoreFunctions(b, n, types, source).rest == ReadFunctions(b, n, types, source).rest
  {
    hide RestoreFunction, ReadFunction;
    var get, pass := BuildFunction(types, source), PassFunction(types, source);
    forall i: nat, s
      ensures get(i, s).Got? && pass(i, s).Got? ==> get(i, s).rest == pass(i, s).rest
    {
      FunctionAgree(s, types, source);
    }
    ManyAgree(b, 0, n, get, pass);
  }

  // ---------------------------------------------------------------- the whole section

  datatype Core = Core(requiresStore: bool, types: seq<FuncType>, functions: seq<Function>, imports: seq<Import>,
      exports: seq<Export>, memories: seq<Mem>)

  const CORE := [4, 4, 4, 4, 4, 4]

  function CoreWords(c: Core): seq<Word> {
    [U32(Flag(c.requiresStore)), U32(|c.types|), U32(|c.functions|), U32(|c.imports|), U32(|c.exports|),
     U32(|c.memories|)]
  }

  /** `write_core_metadata`. */
  function PutCore(c: Core): seq<Byte> {
    PutWords(CoreWords(c)) +
    (PutTypes(c.types)
      + (PutFunctions(c.functions)
      + (PutRecords(c.imports, ImportWords)
      + (PutRecords(c.exports, ExportWords) + PutRecords(c.memories, MemoryWords)))))
  }

  /** The types are finalized as soon as all of them are there. */
  function Settle(types: seq<FuncType>, rest: seq<Byte>): (r: Parsed<seq<FuncType>>)
    ensures r.Got? ==> |r.value| == |types| && r.rest == rest
  {
    match Finalize(types)
    case Broken => Refused
    case Deep => Exhausted
    case Made(us) => Got(us, rest)
  }

  /** `restore_core_metadata`. */
  function RestoreCore(b: seq<Byte>, source: nat): Parsed<Core> {
    var (f, b1) :- GetWords(b, CORE);
    if f[0] > 1 then Refused
    else
      var (read, b2) :- RestoreTypes(b1, f[1]);
      var (types, _) :- Settle(read, b2);
      var (functions, b3) :- RestoreFunctions(b2, f[2], f[1], source);
      var (imports, b4) :- Records(b3, f[3], IMPORT, BuildImport(source));
      var (exports, b5) :- Records(b4, f[4], EXPORT, BuildExport(source));
      var (memories, b6) :- Records(b5, f[5], MEMORY, MemoryFrom);
      Got(Core(f[0] != 0 || AnyComposite(read), types, functions, imports, exports, memories), b6)
  }

  /** What `read_core_metadata` reports. */
  datatype CoreCounts = CoreCounts(types: nat, functions: nat, imports: nat, exports: nat, memories: nat)

  /** `read_core_metadata`. */
  function ReadCore(b: seq<Byte>, source: nat): Parsed<CoreCounts> {
    var (f, b1) :- GetWords(b, CORE);
    if f[0] > 1 then Refused
    else
      var (_, b2) :- ReadTypes(b1, f[1]);
      var (_, b3) :- ReadFunctions(b2, f[2], f[1], source);
      var (_, b4) :- PassAll(b3, f[3], IMPORT, PassImport(source, f[1]));
      var (_, b5) :- PassAll(b4, f[4], EXPORT, PassExport(source));
      var (_, b6) :- PassAll(b5, f[5], MEMORY, MemorySound);
      Got(CoreCounts(f[1], f[2], f[3], f[4], f[5]), b6)
  }

  function CountsOf(c: Core): CoreCounts {
    CoreCounts(|c.types|, |c.functions|, |c.imports|, |c.exports|, |c.memories|)
  }

  /** The numbers fit their C types, and every span lies inside the source. */
  predicate CoreFits(c: Core, source: nat) {
    && AllTypesFit(c.types) && AllFunctionsFit(c.functions, source) && AllImportsFit(c.imports, source)
    && AllExportsFit(c.exports, source) && AllMemoriesFit(c.memories)
  }

  /** What the restoring reader asks of the rest of the core metadata. */
  predicate ListsGood(c: Core) {
    && AllFunctionsGood(c.functions, |c.types|) && AllImportsGood(c.imports)
    && AllExportsGood(c.exports) && AllMemoriesGood(c.memories)
  }

  /** What the restoring reader makes of core metadata: types that cannot be
      finalized are found before anything that is wrong behind them. */
  function CoreFate(c: Core): Fate {
    if !AllTypesGood(c.types) then Bad
    else
      match Finalize(c.types)
      case Broken => Bad
      case Deep => Full
      case Made(_) => if ListsGood(c) then Kept else Bad
  }

  /** Core metadata with its types finalized. */
  function Final(c: Core): Core {
    c.(requiresStore := c.requiresStore || AnyComposite(c.types), types := Rebound(c.types))
  }

  /** What the validating reader asks of core metadata. */
  predicate CoreFine(c: Core) {
    && AllTypesFine(c.types) && AllFunctionsFine(c.functions, |c.types|) && AllImportsFine(c.imports, |c.types|)
    && AllExportsGood(c.exports) && AllMemoriesFine(c.memories)
  }

  lemma {:induction false} CoreHead(c: Core, source: nat)
    requires CoreFits(c, source)
    ensures var f := Values(CoreWords(c));
            && AllInRange(CoreWords(c)) && Shape(CoreWords(c)) == CORE && |f| == 6
            && f[0] <= 1 && (f[0] != 0) == c.requiresStore
            && f[1] == |c.types| && f[2] == |c.functions| && f[3] == |c.imports| && f[4] == |c.exports|
            && f[5] == |c.memories|
  {
  }

  /** What is still to come after the first `k` lists of the section. */
  ghost function CoreTail(c: Core, k: nat, rest: seq<Byte>): seq<Byte>
    decreases 5 - k
  {
    if k >= 5 then rest
    else
      var part := match k
        case 0 => PutTypes(c.types)
        case 1 => PutFunctions(c.functions)
        case 2 => PutRecords(c.imports, ImportWords)
        case 3 => PutRecords(c.exports, ExportWords)
        case _ => PutRecords(c.memories, MemoryWords);
      part + CoreTail(c, k + 1, rest)
  }

  lemma {:induction false} CoreParts(c: Core, rest: seq<Byte>)
    ensures PutCore(c) + rest == PutWords(CoreWords(c)) + CoreTail(c, 0, rest)
    ensures CoreTail(c, 0, rest) == PutTypes(c.types) + CoreTail(c, 1, rest)
    ensures CoreTail(c, 1, rest) == PutFunctions(c.functions) + CoreTail(c, 2, rest)
    ensures CoreTail(c, 2, rest) == PutRecords(c.imports, ImportWords) + CoreTail(c, 3, rest)
    ensures CoreTail(c, 3, rest) == PutRecords(c.exports, ExportWords) + CoreTail(c, 4, rest)
    ensures CoreTail(c, 4, rest) == PutRecords(c.memories, MemoryWords) + rest
  {
    hide PutWords, PutTypes, PutFunctions, PutRecords, CoreWords;
    var m, e, i, f, t := PutRecords(c.memories, MemoryWords), PutRecords(c.exports, ExportWords),
      PutRecords(c.imports, ImportWords), PutFunctions(c.functions), PutTypes(c.types);
    assert CoreTail(c, 5, rest) == rest;
    Associate(e, m, rest);
    Associate(i, e + m, rest);
    Associate(f, i + (e + m), rest);
    Associate(t, f + (i + (e + m)), rest);
    Associate(PutWords(CoreWords(c)), t + (f + (i + (e + m))), rest);
  }

  lemma {:induction false} Associate(a: seq<Byte>, b: seq<Byte>, c: seq<Byte>)
    ensures (a + b) + c == a + (b + c)
  {
  }

  lemma {:induction false} CoreRestored(c: Core, source: nat, rest: seq<Byte>)
    requires CoreFits(c, source)
    ensures RestoreCore(PutCore(c) + rest, source) == Outcome(CoreFate(c), Final(c), rest)
  {
    hide Groups, Rebound, AllTypesBindable, AnyComposite;
    hide CoreWords, AllInRange, Shape, Values, GetWords, PutWords, PutTypes, RestoreTypes, ReadTypes, PutFunctions;
    hide RestoreFunctions, ReadFunctions, PutRecords, Records, PassAll;
    hide AllTypesFit, AllTypesGood, AllTypesFine, AllFunctionsFit, AllFunctionsGood, AllFunctionsFine, AllImportsFit;
    hide AllImportsGood, AllImportsFine;
    hide AllExportsFit, AllExportsGood, AllMemoriesFit, AllMemoriesGood, AllMemoriesFine, BuildImport, PassImport;
    hide BuildExport, PassExport, PutCore, CoreTail;
    CoreHead(c, source);
    CoreParts(c, rest);
    var n, b := |c.types|, CoreTail(c, 0, rest);
    WordsRoundTrip(CoreWords(c), b);
    TypesList(c.types, CoreTail(c, 1, rest));
    FunctionsList(c.functions, n, source, CoreTail(c, 2, rest));
    ImportsList(c.imports, source, n, CoreTail(c, 3, rest));
    ExportsList(c.exports, source, CoreTail(c, 4, rest));
    MemoriesList(c.memories, rest);
  }

  lemma {:induction false} CorePassed(c: Core, source: nat, rest: seq<Byte>)
    requires CoreFits(c, source)
    ensures ReadCore(PutCore(c) + rest, source) == if CoreFine(c) then Got(CountsOf(c), rest) else Refused
  {
    hide CoreWords, AllInRange, Shape, Values, GetWords, PutWords, PutTypes, RestoreTypes, ReadTypes, PutFunctions;
    hide RestoreFunctions, ReadFunctions, PutRecords, Records, PassAll;
    hide AllTypesFit, AllTypesGood, AllTypesFine, AllFunctionsFit, AllFunctionsGood, AllFunctionsFine, AllImportsFit;
    hide AllImportsGood, AllImportsFine;
    hide AllExportsFit, AllExportsGood, AllMemoriesFit, AllMemoriesGood, AllMemoriesFine, BuildImport, PassImport;
    hide BuildExport, PassExport, PutCore, CoreTail;
    CoreHead(c, source);
    CoreParts(c, rest);
    var n, b := |c.types|, CoreTail(c, 0, rest);
    WordsRoundTrip(CoreWords(c), b);
    TypesList(c.types, CoreTail(c, 1, rest));
    FunctionsList(c.functions, n, source, CoreTail(c, 2, rest));
    ImportsList(c.imports, source, n, CoreTail(c, 3, rest));
    ExportsList(c.exports, source, CoreTail(c, 4, rest));
    MemoriesList(c.memories, rest);
  }

  /** Written core metadata is restored, with its types finalized, exactly if its
      fate allows it, and it passes validation exactly if it is fine. */
  lemma {:induction false} CoreRoundTrip(c: Core, source: nat, rest: seq<Byte>)
    requires CoreFits(c, source)
    ensures RestoreCore(PutCore(c) + rest, source) == Outcome(CoreFate(c), Final(c), rest)
    ensures ReadCore(PutCore(c) + rest, source) == if CoreFine(c) then Got(CountsOf(c), rest) else Refused
  {
    hide *;
    CoreRestored(c, source, rest);
    CorePassed(c, source, rest);
  }

  /** On any bytes that both readers accept, they count the same records and end
      at the same place. */
  lemma {:induction false} CoreReadersAgree(b: seq<Byte>, source: nat)
    ensures RestoreCore(b, source).Got? && ReadCore(b, source).Got? ==>
              RestoreCore(b, source).rest == ReadCore(b, source).rest
                && CountsOf(RestoreCore(b, source).value) == ReadCore(b, source).value
  {
    hide GetWords, RestoreTypes, ReadTypes, RestoreFunctions, ReadFunctions, Records, PassAll, BuildImport, PassImport;
    hide BuildExport, PassExport;
    hide Finalize, AnyComposite;
    if RestoreCore(b, source).Got? {
      var h := GetWords(b, CORE);
      var f := h.value;
      TypesAgree(h.rest, f[1]);
      var b2 := RestoreTypes(h.rest, f[1]).rest;
      FunctionsAgree(b2, f[2], f[1], source);
      var b3 := RestoreFunctions(b2, f[2], f[1], source).rest;
      RecordsAgree(b3, f[3], IMPORT, BuildImport(source), PassImport(source, f[1]));
      var b4 := Records(b3, f[3], IMPORT, BuildImport(source)).rest;
      RecordsAgree(b4, f[4], EXPORT, BuildExport(source), PassExport(source));
      var b5 := Records(b4, f[4], EXPORT, BuildExport(source)).rest;
      RecordsAgree(b5, f[5], MEMORY, MemoryFrom, MemorySound);
    }
  }
}
