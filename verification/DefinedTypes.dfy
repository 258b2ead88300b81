/**
  The type context of a module (src/validate_composite.c, src/validation_context.c):
  binding value types to the types they name, checking recursion groups, and
  comparing defined types.
 */
module DefinedTypes {
  import opened Common
  import opened Bytes
  import opened ArtifactRecords

  const TYPE_FUNCTION := 0
  const TYPE_STRUCT := 1
  const TYPE_ARRAY := 2

  datatype FuncType = FuncType(defined: bool, params: seq<Typed>, results: seq<Typed>, kind: nat, final: bool,
      super: nat,
                               groupCount: nat, groupOffset: nat, fields: seq<FieldType>)

  const CARRIER_FUNCTION: Byte := 0x70
  const CARRIER_ANY: Byte := 0x6e

  /** How deep a comparison of types may nest. */
  const DEPENDENCY_LIMIT := 256

  // ---------------------------------------------------------------- binding

  /** A value type that names a defined type. */
  predicate Named(v: ValueType) {
    v.heapKind == HEAP_TYPE_INDEX
  }

  function Kinds(ts: seq<FuncType>): (ks: seq<nat>)
    ensures |ks| == |ts| && forall i :: 0 <= i < |ts| ==> ks[i] == ts[i].kind
  {
    seq(|ts|, i requires 0 <= i < |ts| => ts[i].kind)
  }

  /** `turbowasm_validation_bind_value` succeeds, for types of the given kinds. */
  predicate Bindable(kinds: seq<nat>, v: ValueType) {
    Named(v) ==> v.isReference && v.typeIndex < |kinds|
  }

  function CarrierFor(kind: nat): Byte {
    if kind == TYPE_FUNCTION then CARRIER_FUNCTION else CARRIER_ANY
  }

  /** The carrier of a named type follows from the kind of the type. */
  function Rebind(kinds: seq<nat>, v: ValueType): ValueType {
    if Named(v) && v.typeIndex < |kinds| then v.(carrier := CarrierFor(kinds[v.typeIndex])) else v
  }

  predicate AllBindable(kinds: seq<nat>, xs: seq<Typed>) {
    forall i :: 0 <= i < |xs| ==> Bindable(kinds, xs[i].semantic)
  }

  predicate FieldsBindable(kinds: seq<nat>, xs: seq<FieldType>) {
    forall i :: 0 <= i < |xs| ==> Bindable(kinds, xs[i].semantic)
  }

  function RebindTyped(kinds: seq<nat>, x: Typed): Typed {
    Typed(Rebind(kinds, x.semantic).carrier, Rebind(kinds, x.semantic))
  }

  function RebindAll(kinds: seq<nat>, xs: seq<Typed>): (ys: seq<Typed>)
    ensures |ys| == |xs| && forall i :: 0 <= i < |xs| ==> ys[i] == RebindTyped(kinds, xs[i])
  {
    seq(|xs|, i requires 0 <= i < |xs| => RebindTyped(kinds, xs[i]))
  }

  function RebindFields(kinds: seq<nat>, xs: seq<FieldType>): (ys: seq<FieldType>)
    ensures |ys| == |xs| && forall i :: 0 <= i < |xs| ==> ys[i] == xs[i].(semantic := Rebind(kinds, xs[i].semantic))
  {
    seq(|xs|, i requires 0 <= i < |xs| => xs[i].(semantic := Rebind(kinds, xs[i].semantic)))
  }

  function RebindType(kinds: seq<nat>, t: FuncType): FuncType {
    t.(params := RebindAll(kinds, t.params), results := RebindAll(kinds, t.results),
      fields := RebindFields(kinds, t.fields))
  }

  /** Type `i` lies in a group inside the context. */
  predicate GroupPlaced(t: FuncType, i: nat, n: nat) {
    t.groupOffset <= i && t.groupCount > t.groupOffset && t.groupCount + (i - t.groupOffset) <= n
  }

  predicate TypeBindable(kinds: seq<nat>, t: FuncType, i: nat) {
    && GroupPlaced(t, i, |kinds|)
    && AllBindable(kinds, t.params) && AllBindable(kinds, t.results) && FieldsBindable(kinds, t.fields)
  }

  /** The first loop of `turbowasm_validation_types_finalize` succeeds. */
  predicate AllTypesBindable(ts: seq<FuncType>) {
    forall i :: 0 <= i < |ts| ==> TypeBindable(Kinds(ts), ts[i], i)
  }

  function Rebound(ts: seq<FuncType>): (us: seq<FuncType>)
    ensures |us| == |ts| && forall i :: 0 <= i < |ts| ==> us[i] == RebindType(Kinds(ts), ts[i])
  {
    seq(|ts|, i requires 0 <= i < |ts| => RebindType(Kinds(ts), ts[i]))
  }

  predicate AnyComposite(ts: seq<FuncType>) {
    exists i :: 0 <= i < |ts| && ts[i].kind != TYPE_FUNCTION
  }

  // ---------------------------------------------------------------- comparing types

  /** The first type of the group of type `a`. */
  function Start(ts: seq<FuncType>, a: nat): int
    requires a < |ts|
  {
    a - ts[a].groupOffset
  }

  /** `group_reference_equal`, for references from the groups at `lg` and `rg`. */
  predicate SameRef(ts: seq<FuncType>, p: nat, q: nat, lg: int, rg: int, fuel: nat)
    decreases fuel, 0
  {
    && p < |ts| && q < |ts|
    && var l, r := Start(ts, p) == lg, Start(ts, q) == rg;
       if l || r then l && r && ts[p].groupOffset == ts[q].groupOffset else fuel > 0 && SameType(ts, p, q, fuel - 1)
  }

  predicate SameSuper(ts: seq<FuncType>, p: nat, q: nat, lg: int, rg: int, fuel: nat)
    decreases fuel, 1
  {
    if p == MAX32 || q == MAX32 then p == q else SameRef(ts, p, q, lg, rg, fuel)
  }

  /** `group_value_equal`. */
  predicate SameValue(ts: seq<FuncType>, u: ValueType, v: ValueType, lg: int, rg: int, fuel: nat)
    decreases fuel, 1
  {
    && u.carrier == v.carrier && u.isReference == v.isReference && u.nullable == v.nullable && u.heapKind == v.heapKind
    && (Named(u) ==> SameRef(ts, u.typeIndex, v.typeIndex, lg, rg, fuel))
  }

  predicate SameTyped(ts: seq<FuncType>, a: seq<Typed>, b: seq<Typed>, lg: int, rg: int, fuel: nat)
    decreases fuel, 2
  {
    |a| == |b| && forall k :: 0 <= k < |a| ==> SameValue(ts, a[k].semantic, b[k].semantic, lg, rg, fuel)
  }

  predicate SameField(ts: seq<FuncType>, x: FieldType, y: FieldType, lg: int, rg: int, fuel: nat)
    decreases fuel, 2
  {
    x.packed == y.packed && x.mutable == y.mutable && SameValue(ts, x.semantic, y.semantic, lg, rg, fuel)
  }

  predicate SameFields(ts: seq<FuncType>, a: seq<FieldType>, b: seq<FieldType>, lg: int, rg: int, fuel: nat)
    decreases fuel, 3
  {
    |a| == |b| && forall k :: 0 <= k < |a| ==> SameField(ts, a[k], b[k], lg, rg, fuel)
  }

  /** One pair of members of two groups. */
  predicate SameMember(ts: seq<FuncType>, s: FuncType, t: FuncType, lg: int, rg: int, fuel: nat)
    decreases fuel, 4
  {
    && s.kind == t.kind && s.final == t.final && SameSuper(ts, s.super, t.super, lg, rg, fuel)
    && SameTyped(ts, s.params, t.params, lg, rg, fuel) && SameTyped(ts, s.results, t.results, lg, rg, fuel)
    && SameFields(ts, s.fields, t.fields, lg, rg, fuel)
  }

  /** The members `k` of the groups at `lg` and `rg`. */
  predicate SameAt(ts: seq<FuncType>, lg: int, rg: int, k: nat, fuel: nat)
    requires 0 <= lg && lg + k < |ts| && 0 <= rg && rg + k < |ts|
    decreases fuel, 5
  {
    SameMember(ts, ts[lg + k], ts[rg + k], lg, rg, fuel)
  }

  predicate SameGroups(ts: seq<FuncType>, lg: int, rg: int, count: nat, fuel: nat)
    decreases fuel, 6
  {
    && 0 <= lg && lg + count <= |ts| && 0 <= rg && rg + count <= |ts|
    && forall k :: 0 <= k < count ==> SameAt(ts, lg, rg, k, fuel)
  }

  /** `turbowasm_validation_defined_type_equal`: the same type, or types at the same
      place of groups that are equal member by member. Comparisons of types of
      earlier groups nest at most `fuel` deep. */
  predicate SameType(ts: seq<FuncType>, a: nat, b: nat, fuel: nat)
    decreases fuel, 7
  {
    && a < |ts| && b < |ts|
    && (a == b || (&& ts[a].groupOffset == ts[b].groupOffset && ts[a].groupCount == ts[b].groupCount
                   && SameGroups(ts, Start(ts, a), Start(ts, b), ts[a].groupCount, fuel)))
  }

  predicate Same(ts: seq<FuncType>, a: nat, b: nat) {
    SameType(ts, a, b, DEPENDENCY_LIMIT)
  }

  /** `turbowasm_validation_defined_type_matches`: some type up the chain of `a` is `b`. */
  predicate Matches(ts: seq<FuncType>, a: nat, b: nat)
    decreases a
  {
    && a < |ts|
    && (Same(ts, a, b) || (ts[a].super < a && ts[a].super != MAX32 && Matches(ts, ts[a].super, b)))
  }

  const HEAP_FUNC := 1
  const HEAP_EXTERN := 2
  const HEAP_EXN := 3
  const HEAP_NOEXN := 4
  const HEAP_NOFUNC := 6
  const HEAP_NOEXTERN := 7
  const HEAP_ANY := 8
  const HEAP_EQ := 9
  const HEAP_I31 := 10
  const HEAP_STRUCT := 11
  const HEAP_ARRAY := 12

  /** `turbowasm_validation_value_type_equal`, on bound value types. */
  predicate ValueEqual(ts: seq<FuncType>, u: ValueType, v: ValueType) {
    && u.carrier == v.carrier && u.isReference == v.isReference
    && (u.isReference ==>
         u.nullable == v.nullable && u.heapKind == v.heapKind && (Named(u) ==> Same(ts, u.typeIndex, v.typeIndex)))
  }

  /** The heap kind that a named composite type has among the abstract ones. */
  function Abstract(ts: seq<FuncType>, v: ValueType): nat {
    if !Named(v) || v.typeIndex >= |ts| then v.heapKind
    else if ts[v.typeIndex].kind == TYPE_STRUCT then HEAP_STRUCT else HEAP_ARRAY
  }

  /** `turbowasm_validation_value_type_matches`, on bound value types. */
  predicate ValueMatches(ts: seq<FuncType>, u: ValueType, v: ValueType) {
    if !u.isReference || !v.isReference then ValueEqual(ts, u, v)
    else if u.carrier != v.carrier || (u.nullable && !v.nullable) then false
    else if u.heapKind == v.heapKind then Named(u) ==> Matches(ts, u.typeIndex, v.typeIndex)
    else if Named(u) && v.heapKind == HEAP_FUNC then true
    else if u.carrier == CARRIER_ANY then
      || u.heapKind == HEAP_BOTTOM || v.heapKind == HEAP_ANY || Abstract(ts, u) == v.heapKind
      || (v.heapKind == HEAP_EQ && Abstract(ts, u) in {HEAP_I31, HEAP_STRUCT, HEAP_ARRAY})
    else
      || (u.heapKind == HEAP_NOFUNC && (v.heapKind == HEAP_FUNC || Named(v)))
      || (u.heapKind == HEAP_NOEXTERN && v.heapKind == HEAP_EXTERN)
      || (u.heapKind == HEAP_NOEXN && v.heapKind == HEAP_EXN)
  }

  predicate FieldMatches(ts: seq<FuncType>, x: FieldType, y: FieldType) {
    && x.mutable == y.mutable && x.packed == y.packed
    && if x.mutable then ValueEqual(ts, x.semantic, y.semantic) else ValueMatches(ts, x.semantic, y.semantic)
  }

  /** `subtype_body`: parameters against the direction of the subtype, results and
      immutable fields along it. */
  predicate SubtypeOf(ts: seq<FuncType>, t: FuncType, parent: FuncType) {
    && !parent.final && t.kind == parent.kind
    && |t.params| == |parent.params| && |t.results| == |parent.results| && |t.fields| >= |parent.fields|
    && (forall i :: 0 <= i < |t.params| ==> ValueMatches(ts, parent.params[i].semantic, t.params[i].semantic))
    && (forall i :: 0 <= i < |t.results| ==> ValueMatches(ts, t.results[i].semantic, parent.results[i].semantic))
    && (forall i :: 0 <= i < |parent.fields| ==> FieldMatches(ts, t.fields[i], parent.fields[i]))
  }

  predicate SubtypeBody(ts: seq<FuncType>, a: nat)
    requires a < |ts|
  {
    ts[a].super == MAX32 || (ts[a].super < |ts| && SubtypeOf(ts, ts[a], ts[ts[a].super]))
  }

  // ---------------------------------------------------------------- groups and their depth

  /** The value types of a type in the order in which they are visited. */
  function ValuesOf(t: FuncType): (vs: seq<ValueType>)
    ensures |vs| == |t.params| + |t.results| + |t.fields|
  {
    seq(|t.params|, i requires 0 <= i < |t.params| => t.params[i].semantic)
    + seq(|t.results|, i requires 0 <= i < |t.results| => t.results[i].semantic)
    + seq(|t.fields|, i requires 0 <= i < |t.fields| => t.fields[i].semantic)
  }

  function Raise(depth: nat, other: nat): (d: nat)
    ensures d >= depth && d > other
  {
    if depth <= other then other + 1 else depth
  }

  /** The depth after the value types `vs[k..]` of a type in the group from `|depths|`
      to `end`; none if one of them names a type behind the group. */
  function ValuesDepth(vs: seq<ValueType>, k: nat, depths: seq<nat>, end: nat, depth: nat): (d: Option<nat>)
    requires k <= |vs|
    decreases |vs| - k
  {
    if k == |vs| then Some(depth)
    else if Named(vs[k]) && vs[k].typeIndex >= end then None
    else ValuesDepth(vs, k + 1, depths, end, if Named(vs[k]) && vs[k].typeIndex < |depths| then
      Raise(depth, depths[vs[k].typeIndex]) else depth)
  }

  /** The depth after the members from `j` on; none if one of them is not in this
      very group or names a type behind it. */
  function MembersDepth(ts: seq<FuncType>, depths: seq<nat>, count: nat, j: nat, depth: nat): (d: Option<nat>)
    requires j <= count && |depths| + count <= |ts|
    decreases count - j
  {
    if j == count then Some(depth)
    else
      var t := ts[|depths| + j];
      if t.groupOffset != j || t.groupCount != count then None
      else
        var d := ValuesDepth(ValuesOf(t), 0, depths, |depths| + count,
                             if t.super != MAX32 && t.super < |depths| then Raise(depth, depths[t.super]) else depth);
        if d.None? then None else MembersDepth(ts, depths, count, j + 1, d.value)
  }

  datatype Checked = Malformed | TooDeep | Fine(depths: seq<nat>)

  predicate BodiesOk(ts: seq<FuncType>, i: nat, count: nat)
    requires i + count <= |ts|
  {
    forall a :: i <= a < i + count ==> SubtypeBody(ts, a)
  }

  /** The second loop of `turbowasm_validation_types_finalize`, from the group at `|depths|` on. */
  function Groups(ts: seq<FuncType>, depths: seq<nat>): (r: Checked)
    requires |depths| <= |ts|
    ensures r.Fine? ==> |r.depths| == |ts| && depths <= r.depths
    decreases |ts| - |depths|
  {
    if |depths| == |ts| then Fine(depths)
    else
      var count := ts[|depths|].groupCount;
      if count == 0 || count > |ts| - |depths| then Malformed
      else
        var d := MembersDepth(ts, depths, count, 0, 1);
        if d.None? then Malformed
        else if d.value > DEPENDENCY_LIMIT then TooDeep
        else if !BodiesOk(ts, |depths|, count) then Malformed
        else Groups(ts, depths + seq(count, _ => d.value))
  }

  /** `turbowasm_validation_types_finalize`. */
  datatype Finalized = Broken | Deep | Made(types: seq<FuncType>)

  function Finalize(ts: seq<FuncType>): (r: Finalized)
    ensures r.Made? ==> |r.types| == |ts|
  {
    if !AllTypesBindable(ts) then Broken
    else
      match Groups(Rebound(ts), [])
      case Malformed => Broken
      case TooDeep => Deep
      case Fine(_) => Made(Rebound(ts))
  }

  // ---------------------------------------------------------------- finalizing twice

  /** The carrier is right if a type is named. */
  predicate Carried(kinds: seq<nat>, v: ValueType) {
    Named(v) && v.typeIndex < |kinds| ==> v.carrier == CarrierFor(kinds[v.typeIndex])
  }

  predicate TypedBound(kinds: seq<nat>, xs: seq<Typed>) {
    forall i :: 0 <= i < |xs| ==> Carried(kinds, xs[i].semantic) && xs[i].carrier == xs[i].semantic.carrier
  }

  predicate TypeBound(kinds: seq<nat>, t: FuncType) {
    && TypedBound(kinds, t.params) && TypedBound(kinds, t.results)
    && (forall i :: 0 <= i < |t.fields| ==> Carried(kinds, t.fields[i].semantic))
  }

  predicate AllBound(ts: seq<FuncType>) {
    forall i :: 0 <= i < |ts| ==> TypeBound(Kinds(ts), ts[i])
  }

  lemma {:induction false} ReboundKinds(ts: seq<FuncType>)
    ensures Kinds(Rebound(ts)) == Kinds(ts)
  {
  }

  lemma {:induction false} TypedBoundMeans(kinds: seq<nat>, xs: seq<Typed>)
    ensures TypedBound(kinds, xs) <==> RebindAll(kinds, xs) == xs
  {
    if RebindAll(kinds, xs) == xs {
      forall i | 0 <= i < |xs|
        ensures Carried(kinds, xs[i].semantic) && xs[i].carrier == xs[i].semantic.carrier
      {
        assert xs[i] == RebindTyped(kinds, xs[i]);
      }
    }
  }

  lemma {:induction false} TypeBoundMeans(kinds: seq<nat>, t: FuncType)
    ensures TypeBound(kinds, t) <==> RebindType(kinds, t) == t
  {
    TypedBoundMeans(kinds, t.params);
    TypedBoundMeans(kinds, t.results);
    hide TypedBound, RebindAll;
    if RebindFields(kinds, t.fields) == t.fields {
      assert forall i :: 0 <= i < |t.fields| ==>
          t.fields[i] == t.fields[i].(semantic := Rebind(kinds, t.fields[i].semantic));
    }
  }

  /** Finalizing leaves a context as it is exactly if the carriers are right. */
  lemma {:induction false} BoundUnchanged(ts: seq<FuncType>)
    ensures AllBound(ts) <==> Rebound(ts) == ts
    ensures Finalize(ts).Made? ==> (AllBound(ts) <==> Finalize(ts).types == ts)
  {
    hide RebindType, Groups, TypeBound;
    forall i | 0 <= i < |ts|
      ensures TypeBound(Kinds(ts), ts[i]) <==> Rebound(ts)[i] == ts[i]
    {
      TypeBoundMeans(Kinds(ts), ts[i]);
    }
  }

  /** What was finalized once is finalized again without change. */
  lemma {:induction false} FinalizeTwice(ts: seq<FuncType>)
    requires Finalize(ts).Made?
    ensures AllBound(Finalize(ts).types) && Finalize(Finalize(ts).types) == Finalize(ts)
  {
    var us, kinds := Rebound(ts), Kinds(ts);
    ReboundKinds(ts);
    forall i | 0 <= i < |us|
      ensures TypeBound(kinds, us[i]) && TypeBindable(kinds, us[i], i)
    {
      assert TypeBindable(kinds, ts[i], i);
    }
    hide Groups, RebindType, TypeBindable, TypeBound;
    BoundUnchanged(us);
  }
}
