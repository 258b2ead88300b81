/**
  The type context as the code works on it (src/validate_composite.c): value types
  are bound in place, groups are checked one after the other, and types compared
  by walking over their groups.
 */
module TypeMachine {
  import opened Common
  import opened Bytes
  import opened ArtifactRecords
  import opened DefinedTypes
  import opened TypeOrder

  // ---------------------------------------------------------------- binding

  /** `turbowasm_validation_bind_value`. */
  method BindValue(types: seq<FuncType>, v: ValueType) returns (ok: bool, w: ValueType)
    ensures ok == Bindable(Kinds(types), v) && (ok ==> w == Rebind(Kinds(types), v))
  {
    w := v;
    if v.heapKind == HEAP_TYPE_INDEX {
      if !v.isReference || v.typeIndex >= |types| {
        return false, v;
      }
      w := v.(carrier := if types[v.typeIndex].kind == TYPE_FUNCTION then CARRIER_FUNCTION else CARRIER_ANY);
    }
    ok := true;
  }

  /** The loop over parameters or results. */
  method BindTyped(types: seq<FuncType>, xs: seq<Typed>) returns (ok: bool, ys: seq<Typed>)
    ensures ok == AllBindable(Kinds(types), xs) && (ok ==> ys == RebindAll(Kinds(types), xs))
  {
    hide Rebind, Bindable;
    ys := xs;
    var j := 0;
    while j < |xs|
      invariant 0 <= j <= |xs| == |ys| && AllBindable(Kinds(types), xs[..j])
      invariant forall k :: 0 <= k < |xs| ==> ys[k] == if k < j then RebindTyped(Kinds(types), xs[k]) else xs[k]
    {
      var v;
      ok, v := BindValue(types, ys[j].semantic);
      if !ok {
        return;
      }
      ys := ys[j := Typed(v.carrier, v)];
      j := j + 1;
    }
    assert xs[..j] == xs && ys == RebindAll(Kinds(types), xs);
    ok := true;
  }

  method BindFields(types: seq<FuncType>, xs: seq<FieldType>) returns (ok: bool, ys: seq<FieldType>)
    ensures ok == FieldsBindable(Kinds(types), xs) && (ok ==> ys == RebindFields(Kinds(types), xs))
  {
    hide Rebind, Bindable;
    ys := xs;
    var j := 0;
    while j < |xs|
      invariant 0 <= j <= |xs| == |ys| && FieldsBindable(Kinds(types), xs[..j])
      invariant forall k :: 0 <= k < |xs| ==>
                  ys[k] == if k < j then xs[k].(semantic := Rebind(Kinds(types), xs[k].semantic)) else xs[k]
    {
      var v;
      ok, v := BindValue(types, ys[j].semantic);
      if !ok {
        return;
      }
      ys := ys[j := ys[j].(semantic := v)];
      j := j + 1;
    }
    assert xs[..j] == xs && ys == RebindFields(Kinds(types), xs);
    ok := true;
  }

  /** Binds one type. */
  method BindType(types: seq<FuncType>, i: nat) returns (ok: bool, t: FuncType)
    requires i < |types|
    ensures ok == TypeBindable(Kinds(types), types[i], i) && (ok ==> t == RebindType(Kinds(types), types[i]))
  {
    hide AllBindable, FieldsBindable, RebindAll, RebindFields;
    t := types[i];
    if t.groupOffset > i || t.groupCount <= t.groupOffset || t.groupCount > |types| - (i - t.groupOffset) {
      return false, t;
    }
    var params, results, fields;
    ok, params := BindTyped(types, t.params);
    if !ok {
      return;
    }
    ok, results := BindTyped(types, t.results);
    if !ok {
      return;
    }
    ok, fields := BindFields(types, t.fields);
    t := t.(params := params, results := results, fields := fields);
  }

  /** The first loop of `turbowasm_validation_types_finalize`. */
  method BindTypes(types: array<FuncType>, store: bool) returns (ok: bool, requiresStore: bool)
    modifies types
    ensures ok == AllTypesBindable(old(types[..]))
    ensures ok ==> types[..] == Rebound(old(types[..])) && requiresStore == (store || AnyComposite(old(types[..])))
  {
    hide TypeBindable, RebindAll, RebindFields;
    ghost var ts, kinds := types[..], Kinds(types[..]);
    requiresStore := store;
    var i := 0;
    while i < types.Length
      invariant 0 <= i <= types.Length && Kinds(types[..]) == kinds
      invariant forall k :: 0 <= k < types.Length ==> types[k] == if k < i then RebindType(kinds, ts[k]) else ts[k]
      invariant forall k :: 0 <= k < i ==> TypeBindable(kinds, ts[k], k)
      invariant requiresStore == (store || AnyComposite(ts[..i]))
    {
      if types[i].kind != TYPE_FUNCTION {
        assert ts[..i + 1][i].kind != TYPE_FUNCTION;
        requiresStore := true;
      }
      var t;
      ok, t := BindType(types[..], i);
      if !ok {
        return;
      }
      types[i] := t;
      assert ts[..i + 1] == ts[..i] + [ts[i]];
      i := i + 1;
      assert Kinds(types[..]) == kinds;
    }
    assert ts[..i] == ts && types[..] == Rebound(ts);
    ok := true;
  }

  // ---------------------------------------------------------------- comparing

  /** The named value types of a list are below type `a`. */
  predicate ListBelow(ts: seq<FuncType>, depths: seq<nat>, a: nat, vs: seq<ValueType>)
    requires a < |depths| <= |ts|
  {
    forall k :: 0 <= k < |vs| && Named(vs[k]) ==> Below(ts, depths, a, vs[k].typeIndex)
  }

  predicate ListWithin(vs: seq<ValueType>, n: nat) {
    forall k :: 0 <= k < |vs| && Named(vs[k]) ==> vs[k].typeIndex < n
  }

  function Types(xs: seq<Typed>): (vs: seq<ValueType>)
    ensures |vs| == |xs| && forall k :: 0 <= k < |xs| ==> vs[k] == xs[k].semantic
  {
    seq(|xs|, k requires 0 <= k < |xs| => xs[k].semantic)
  }

  function FieldTypes(xs: seq<FieldType>): (vs: seq<ValueType>)
    ensures |vs| == |xs| && forall k :: 0 <= k < |xs| ==> vs[k] == xs[k].semantic
  {
    seq(|xs|, k requires 0 <= k < |xs| => xs[k].semantic)
  }

  /** What a type's layer says of its lists. */
  lemma {:induction false} Lists(ts: seq<FuncType>, depths: seq<nat>, a: nat)
    requires Layered(ts, depths) && a < |depths|
    ensures ListBelow(ts, depths, a, Types(ts[a].params)) && ListBelow(ts, depths, a, Types(ts[a].results))
    ensures ListBelow(ts, depths, a, FieldTypes(ts[a].fields))
    ensures ListWithin(Types(ts[a].params), |depths|) && ListWithin(Types(ts[a].results), |depths|)
    ensures ListWithin(FieldTypes(ts[a].fields), |depths|)
    ensures ts[a].super != MAX32 ==> Below(ts, depths, a, ts[a].super)
  {
    assert Layer(ts, depths, a);
    hide Layered;
    var t := ts[a];
    assert ValuesOf(t) == Types(t.params) + Types(t.results) + FieldTypes(t.fields);
    forall k | 0 <= k < |t.params| && Named(t.params[k].semantic)
      ensures Below(ts, depths, a, t.params[k].semantic.typeIndex)
    {
      assert ValuesOf(t)[k] == t.params[k].semantic;
    }
    forall k | 0 <= k < |t.results| && Named(t.results[k].semantic)
      ensures Below(ts, depths, a, t.results[k].semantic.typeIndex)
    {
      assert ValuesOf(t)[|t.params| + k] == t.results[k].semantic;
    }
    forall k | 0 <= k < |t.fields| && Named(t.fields[k].semantic)
      ensures Below(ts, depths, a, t.fields[k].semantic.typeIndex)
    {
      assert ValuesOf(t)[|t.params| + |t.results| + k] == t.fields[k].semantic;
    }
  }

  /** `group_reference_equal`, on references of type `a` and of the group at `rg`. */
  method ReferenceEqual(ts: seq<FuncType>, ghost depths: seq<nat>, ghost a: nat, p: nat, q: nat, lg: int, rg: int)
      returns (same: bool)
    requires Layered(ts, depths) && a < |depths| && lg == Start(ts, a) && Below(ts, depths, a, p) && q < |depths|
    ensures same == SameRef(ts, p, q, lg, rg, DEPENDENCY_LIMIT)
    decreases depths[a], 0
  {
    assert Layer(ts, depths, a) && Layer(ts, depths, p);
    hide Layered, SameType, Layer;
    var l, r := p - ts[p].groupOffset == lg, q - ts[q].groupOffset == rg;
    if l || r {
      return l && r && ts[p].groupOffset == ts[q].groupOffset;
    }
    same := TypeEqual(ts, depths, p, q);
    Settled(ts, depths, p, q, DEPENDENCY_LIMIT, DEPENDENCY_LIMIT - 1);
  }

  /** `group_value_equal`. */
  method GroupValueEqual(ts: seq<FuncType>, ghost depths: seq<nat>, ghost a: nat, u: ValueType, v: ValueType, lg: int,
      rg: int) returns (same: bool)
    requires Layered(ts, depths) && a < |depths| && lg == Start(ts, a)
    requires (Named(u) ==> Below(ts, depths, a, u.typeIndex)) && (Named(v) ==> v.typeIndex < |depths|)
    ensures same == SameValue(ts, u, v, lg, rg, DEPENDENCY_LIMIT)
    decreases depths[a], 1
  {
    hide Layered, SameRef;
    if u.carrier != v.carrier || u.isReference != v.isReference || u.nullable != v.nullable
      || u.heapKind != v.heapKind {
      return false;
    }
    if u.heapKind != HEAP_TYPE_INDEX {
      return true;
    }
    same := ReferenceEqual(ts, depths, a, u.typeIndex, v.typeIndex, lg, rg);
  }

  method TypedEqual(ts: seq<FuncType>, ghost depths: seq<nat>, ghost a: nat, xs: seq<Typed>, ys: seq<Typed>, lg: int,
      rg: int) returns (same: bool)
    requires Layered(ts, depths) && a < |depths| && lg == Start(ts, a) && |xs| == |ys|
    requires ListBelow(ts, depths, a, Types(xs)) && ListWithin(Types(ys), |depths|)
    ensures same == SameTyped(ts, xs, ys, lg, rg, DEPENDENCY_LIMIT)
    decreases depths[a], 2
  {
    hide Layered, SameValue, Below;
    var j := 0;
    while j < |xs|
      invariant 0 <= j <= |xs|
      invariant forall k :: 0 <= k < j ==> SameValue(ts, xs[k].semantic, ys[k].semantic, lg, rg, DEPENDENCY_LIMIT)
    {
      assert Types(xs)[j] == xs[j].semantic && Types(ys)[j] == ys[j].semantic;
      same := GroupValueEqual(ts, depths, a, xs[j].semantic, ys[j].semantic, lg, rg);
      if !same {
        return;
      }
      j := j + 1;
    }
    same := true;
  }

  method FieldsEqual(ts: seq<FuncType>, ghost depths: seq<nat>, ghost a: nat, xs: seq<FieldType>, ys: seq<FieldType>,
      lg: int, rg: int) returns (same: bool)
    requires Layered(ts, depths) && a < |depths| && lg == Start(ts, a) && |xs| == |ys|
    requires ListBelow(ts, depths, a, FieldTypes(xs)) && ListWithin(FieldTypes(ys), |depths|)
    ensures same == SameFields(ts, xs, ys, lg, rg, DEPENDENCY_LIMIT)
    decreases depths[a], 2
  {
    hide Layered, SameValue, Below;
    var j := 0;
    while j < |xs|
      invariant 0 <= j <= |xs|
      invariant forall k :: 0 <= k < j ==> SameField(ts, xs[k], ys[k], lg, rg, DEPENDENCY_LIMIT)
    {
      assert FieldTypes(xs)[j] == xs[j].semantic && FieldTypes(ys)[j] == ys[j].semantic;
      same := false;
      if xs[j].packed == ys[j].packed && xs[j].mutable == ys[j].mutable {
        same := GroupValueEqual(ts, depths, a, xs[j].semantic, ys[j].semantic, lg, rg);
      }
      assert same == SameField(ts, xs[j], ys[j], lg, rg, DEPENDENCY_LIMIT);
      if !same {
        return;
      }
      j := j + 1;
    }
    same := true;
  }

  /** One turn of the loop over the members of two groups. */
  method MemberEqual(ts: seq<FuncType>, ghost depths: seq<nat>, a: nat, b: nat, lg: int, rg: int) returns (same: bool)
    requires Layered(ts, depths) && a < |depths| && b < |depths| && lg == Start(ts, a)
    ensures same == SameMember(ts, ts[a], ts[b], lg, rg, DEPENDENCY_LIMIT)
    decreases depths[a], 3
  {
    Lists(ts, depths, a);
    Lists(ts, depths, b);
    hide Layered, SameRef, SameTyped, SameFields, ListBelow, ListWithin;
    var s, t := ts[a], ts[b];
    if s.kind != t.kind || s.final != t.final || |s.params| != |t.params| || |s.results| != |t.results|
      || |s.fields| != |t.fields| {
      Lengths(ts, s, t, lg, rg);
      return false;
    }
    if s.super == MAX32 || t.super == MAX32 {
      same := s.super == t.super;
    } else {
      same := ReferenceEqual(ts, depths, a, s.super, t.super, lg, rg);
    }
    if same {
      same := TypedEqual(ts, depths, a, s.params, t.params, lg, rg);
    }
    if same {
      same := TypedEqual(ts, depths, a, s.results, t.results, lg, rg);
    }
    if same {
      same := FieldsEqual(ts, depths, a, s.fields, t.fields, lg, rg);
    }
  }

  lemma {:induction false} Lengths(ts: seq<FuncType>, s: FuncType, t: FuncType, lg: int, rg: int)
    ensures SameMember(ts, s, t, lg, rg, DEPENDENCY_LIMIT) ==>
              |s.params| == |t.params| && |s.results| == |t.results| && |s.fields| == |t.fields|
  {
  }

  /** `turbowasm_validation_defined_type_equal`. It ends because what it compares on
      the way down lies in ever shallower layers. */
  method TypeEqual(ts: seq<FuncType>, ghost depths: seq<nat>, a: nat, b: nat) returns (same: bool)
    requires Layered(ts, depths) && a < |depths| && b < |depths|
    ensures same == Same(ts, a, b)
    decreases depths[a], 4
  {
    assert Layer(ts, depths, a) && Layer(ts, depths, b);
    if a == b {
      return true;
    }
    if ts[a].groupOffset != ts[b].groupOffset || ts[a].groupCount != ts[b].groupCount {
      return false;
    }
    var lg, rg, count := a - ts[a].groupOffset, b - ts[b].groupOffset, ts[a].groupCount;
    assert forall k :: lg <= k < lg + count ==> Together(ts, depths, a, k);
    hide Layered, Layer, SameMember;
    var i := 0;
    while i < count
      invariant 0 <= i <= count && forall k :: 0 <= k < i ==> SameAt(ts, lg, rg, k, DEPENDENCY_LIMIT)
    {
      assert Together(ts, depths, a, lg + i);
      same := MemberEqual(ts, depths, lg + i, rg + i, lg, rg);
      assert same == SameAt(ts, lg, rg, i, DEPENDENCY_LIMIT);
      if !same {
        return;
      }
      i := i + 1;
    }
    same := true;
  }

  /** `turbowasm_validation_defined_type_matches`. */
  method TypeMatches(ts: seq<FuncType>, ghost depths: seq<nat>, a: nat, b: nat) returns (matches: bool)
    requires Layered(ts, depths) && a < |depths| && b < |depths| && SupersEarlier(ts)
    ensures matches == Matches(ts, a, b)
  {
    assert |depths| <= |ts|;
    hide Layered, Same;
    var x: nat := a;
    while true
      invariant x < |depths| <= |ts| && Matches(ts, a, b) == Matches(ts, x, b)
      decreases x
    {
      var same := TypeEqual(ts, depths, x, b);
      if same {
        return true;
      }
      if ts[x].super == MAX32 {
        return false;
      }
      x := ts[x].super;
    }
  }

  /** `turbowasm_validation_value_type_equal`. */
  method ValueTypeEqual(ts: seq<FuncType>, ghost depths: seq<nat>, u: ValueType, v: ValueType) returns (same: bool)
    requires Layered(ts, depths) && (Named(u) ==> u.typeIndex < |depths|) && (Named(v) ==> v.typeIndex < |depths|)
    ensures same == ValueEqual(ts, u, v)
  {
    hide Layered, Same;
    if u.carrier != v.carrier || u.isReference != v.isReference {
      return false;
    }
    if !u.isReference {
      return true;
    }
    if u.nullable != v.nullable || u.heapKind != v.heapKind {
      return false;
    }
    same := true;
    if u.heapKind == HEAP_TYPE_INDEX {
      same := TypeEqual(ts, depths, u.typeIndex, v.typeIndex);
    }
  }

  /** `turbowasm_validation_value_type_matches`. */
  method ValueTypeMatches(ts: seq<FuncType>, ghost depths: seq<nat>, u: ValueType, v: ValueType) returns (matches: bool)
    requires Layered(ts, depths) && SupersEarlier(ts) && (Named(u) ==> u.typeIndex < |depths|)
    requires (Named(v) ==> v.typeIndex < |depths|)
    ensures matches == ValueMatches(ts, u, v)
  {
    assert |depths| <= |ts|;
    hide Layered, Matches, ValueEqual;
    if !u.isReference || !v.isReference {
      matches := ValueTypeEqual(ts, depths, u, v);
      return;
    }
    if u.carrier != v.carrier || (u.nullable && !v.nullable) {
      return false;
    }
    if u.heapKind == v.heapKind {
      matches := true;
      if u.heapKind == HEAP_TYPE_INDEX {
        matches := TypeMatches(ts, depths, u.typeIndex, v.typeIndex);
      }
      return;
    }
    if u.heapKind == HEAP_TYPE_INDEX && v.heapKind == HEAP_FUNC {
      return true;
    }
    if u.carrier == CARRIER_ANY {
      var kind := u.heapKind;
      if kind == HEAP_BOTTOM || v.heapKind == HEAP_ANY {
        return true;
      }
      if kind == HEAP_TYPE_INDEX {
        kind := if ts[u.typeIndex].kind == TYPE_STRUCT then HEAP_STRUCT else HEAP_ARRAY;
      }
      return kind == v.heapKind
        || (v.heapKind == HEAP_EQ && (kind == HEAP_I31 || kind == HEAP_STRUCT || kind == HEAP_ARRAY));
    }
    if u.heapKind == HEAP_NOFUNC && (v.heapKind == HEAP_FUNC || v.heapKind == HEAP_TYPE_INDEX) {
      return true;
    }
    if u.heapKind == HEAP_NOEXTERN && v.heapKind == HEAP_EXTERN {
      return true;
    }
    return u.heapKind == HEAP_NOEXN && v.heapKind == HEAP_EXN;
  }

  // ---------------------------------------------------------------- subtypes

  /** `subs[k]` matches `supers[k]` for all k. */
  method AllMatch(ts: seq<FuncType>, ghost depths: seq<nat>, subs: seq<Typed>, supers: seq<Typed>) returns (ok: bool)
    requires Layered(ts, depths) && SupersEarlier(ts) && |subs| == |supers|
    requires ListWithin(Types(subs), |depths|) && ListWithin(Types(supers), |depths|)
    ensures ok <==> forall i :: 0 <= i < |subs| ==> ValueMatches(ts, subs[i].semantic, supers[i].semantic)
  {
    hide Layered, SupersEarlier, ValueMatches;
    var i := 0;
    while i < |subs|
      invariant 0 <= i <= |subs| && forall k :: 0 <= k < i ==> ValueMatches(ts, subs[k].semantic, supers[k].semantic)
    {
      assert Types(subs)[i] == subs[i].semantic && Types(supers)[i] == supers[i].semantic;
      ok := ValueTypeMatches(ts, depths, subs[i].semantic, supers[i].semantic);
      if !ok {
        return;
      }
      i := i + 1;
    }
    ok := true;
  }

  method FieldsMatch(ts: seq<FuncType>, ghost depths: seq<nat>, subs: seq<FieldType>, supers: seq<FieldType>)
      returns (ok: bool)
    requires Layered(ts, depths) && SupersEarlier(ts) && |subs| >= |supers|
    requires ListWithin(FieldTypes(subs), |depths|) && ListWithin(FieldTypes(supers), |depths|)
    ensures ok <==> forall i :: 0 <= i < |supers| ==> FieldMatches(ts, subs[i], supers[i])
  {
    hide Layered, SupersEarlier, ValueMatches, ValueEqual;
    var i := 0;
    while i < |supers|
      invariant 0 <= i <= |supers| && forall k :: 0 <= k < i ==> FieldMatches(ts, subs[k], supers[k])
    {
      assert FieldTypes(subs)[i] == subs[i].semantic && FieldTypes(supers)[i] == supers[i].semantic;
      ok := false;
      if subs[i].mutable == supers[i].mutable && subs[i].packed == supers[i].packed {
        if subs[i].mutable {
          ok := ValueTypeEqual(ts, depths, subs[i].semantic, supers[i].semantic);
        } else {
          ok := ValueTypeMatches(ts, depths, subs[i].semantic, supers[i].semantic);
        }
      }
      assert ok == FieldMatches(ts, subs[i], supers[i]);
      if !ok {
        return;
      }
      i := i + 1;
    }
    ok := true;
  }

  /** `subtype_body`. */
  method IsSubtype(ts: seq<FuncType>, ghost depths: seq<nat>, a: nat) returns (ok: bool)
    requires Layered(ts, depths) && SupersEarlier(ts) && a < |depths|
    ensures ok == SubtypeBody(ts, a)
  {
    if ts[a].super == MAX32 {
      return true;
    }
    var t, parent := ts[a], ts[ts[a].super];
    Lists(ts, depths, a);
    Lists(ts, depths, ts[a].super);
    hide Layered, SupersEarlier, ValueMatches, ListWithin, ListBelow;
    if parent.final || t.kind != parent.kind || |t.params| != |parent.params| || |t.results| != |parent.results|
      || |t.fields| < |parent.fields| {
      return false;
    }
    ok := AllMatch(ts, depths, parent.params, t.params);
    if ok {
      ok := AllMatch(ts, depths, t.results, parent.results);
    }
    if ok {
      ok := FieldsMatch(ts, depths, t.fields, parent.fields);
    }
  }

  // ---------------------------------------------------------------- groups

  /** The loop over the value types of a member. */
  method RaiseOver(vs: seq<ValueType>, depths: seq<nat>, end: nat, first: nat) returns (d: Option<nat>)
    requires |depths| <= end
    ensures d == ValuesDepth(vs, 0, depths, end, first)
  {
    var depth, k := first, 0;
    while k < |vs|
      invariant 0 <= k <= |vs| && ValuesDepth(vs, 0, depths, end, first) == ValuesDepth(vs, k, depths, end, depth)
    {
      var v := vs[k];
      if v.heapKind == HEAP_TYPE_INDEX && v.typeIndex >= end {
        return None;
      }
      if v.heapKind == HEAP_TYPE_INDEX && v.typeIndex < |depths| && depth <= depths[v.typeIndex] {
        depth := depths[v.typeIndex] + 1;
      }
      k := k + 1;
    }
    d := Some(depth);
  }

  /** The loop over the members of the group at `|depths|`. */
  method GroupDepth(ts: seq<FuncType>, depths: seq<nat>, count: nat) returns (d: Option<nat>)
    requires |depths| + count <= |ts|
    ensures d == MembersDepth(ts, depths, count, 0, 1)
  {
    hide ValuesDepth, ValuesOf;
    var i, depth, j := |depths|, 1, 0;
    while j < count
      invariant 0 <= j <= count && MembersDepth(ts, depths, count, 0, 1) == MembersDepth(ts, depths, count, j, depth)
    {
      var t := ts[i + j];
      if t.groupOffset != j || t.groupCount != count {
        return None;
      }
      if t.super != MAX32 && t.super < i && depth <= depths[t.super] {
        depth := depths[t.super] + 1;
      }
      d := RaiseOver(ValuesOf(t), depths, i + count, depth);
      if d.None? {
        return;
      }
      depth := d.value;
      j := j + 1;
    }
    d := Some(depth);
  }

  /** The loop over the subtypes of a group. */
  method CheckBodies(ts: seq<FuncType>, ghost depths: seq<nat>, i: nat, count: nat) returns (ok: bool)
    requires Layered(ts, depths) && SupersEarlier(ts) && i + count <= |depths|
    ensures i + count <= |ts| && ok == BodiesOk(ts, i, count)
  {
    hide SubtypeBody, SupersEarlier;
    var j := 0;
    while j < count
      invariant 0 <= j <= count && forall a :: i <= a < i + j ==> SubtypeBody(ts, a)
    {
      ok := IsSubtype(ts, depths, i + j);
      if !ok {
        return;
      }
      j := j + 1;
    }
    ok := true;
  }

  /** The second loop of `turbowasm_validation_types_finalize`. */
  method CheckGroups(ts: seq<FuncType>) returns (r: Checked)
    requires SupersEarlier(ts)
    ensures r == Groups(ts, [])
  {
    var depths: seq<nat> := [];
    assert Layered(ts, depths);
    hide Layered, SupersEarlier, MembersDepth, BodiesOk;
    while |depths| < |ts|
      invariant |depths| <= |ts| && Layered(ts, depths) && Groups(ts, []) == Groups(ts, depths)
      decreases |ts| - |depths|
    {
      var i, count := |depths|, ts[|depths|].groupCount;
      if count == 0 || count > |ts| - i {
        return Malformed;
      }
      var d := GroupDepth(ts, depths, count);
      if d.None? {
        return Malformed;
      }
      if d.value > DEPENDENCY_LIMIT {
        return TooDeep;
      }
      MembersBelow(ts, depths, count, 0, 1);
      LayersGrow(ts, depths, count, d.value);
      var next := depths + seq(count, _ => d.value);
      var ok := CheckBodies(ts, next, i, count);
      if !ok {
        return Malformed;
      }
      depths := next;
    }
    r := Fine(depths);
  }

  /** `turbowasm_validation_types_finalize`. */
  method FinalizeTypes(types: array<FuncType>, store: bool) returns (status: Status, requiresStore: bool)
    requires SupersEarlier(types[..])
    modifies types
    ensures status == match Finalize(old(types[..]))
                      case Broken => MalformedModule
                      case Deep => OutOfMemory
                      case Made(_) => Ok
    ensures status == Ok ==>
              types[..] == Finalize(old(types[..])).types && requiresStore == (store || AnyComposite(old(types[..])))
  {
    hide Groups, TypeBindable, RebindType;
    ghost var ts := types[..];
    var ok;
    ok, requiresStore := BindTypes(types, store);
    if !ok {
      return MalformedModule, requiresStore;
    }
    ReboundSupers(ts);
    var r := CheckGroups(types[..]);
    match r
    case Malformed => return MalformedModule, requiresStore;
    case TooDeep => return OutOfMemory, requiresStore;
    case Fine(_) => return Ok, requiresStore;
  }

  lemma {:induction false} ReboundSupers(ts: seq<FuncType>)
    requires SupersEarlier(ts)
    ensures SupersEarlier(Rebound(ts))
  {
  }
}
