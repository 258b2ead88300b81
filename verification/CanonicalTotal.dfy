/**
  Lowering a well-typed value whose type has no strings and no lists, and so asks
  for no guest memory, always succeeds: no carrier ever mismatches.
 */
module CanonicalTotal {
  import opened Common
  import opened Bytes
  import opened CanonicalLayout
  import opened CanonicalFlatten
  import opened CanonicalMemory
  import opened CanonicalRoundTrip
  import opened CanonicalFlatValues

  /** `v` is a value of type `t`. */
  predicate Typed(t: Ty, v: Val)
    decreases t, Arity(t) + 2
  {
    match t
    case Scalar(k) => v.Num? && v.kind == k && Fits(k, v.n) && (k == Char ==> UnicodeScalar(v.n))
    case Str => v.Text?
    case List(_) => v.Items? && forall i :: 0 <= i < |v.items| ==> Typed(t.element, v.items[i])
    case Fields(record, fields) => v.Members? && v.record == record && |v.members| == |fields|
      && TypedFields(t, v.members, |fields|)
    case Cases(family, cases) =>
      && v.Case? && v.family == family && v.index < |cases| && cases[v.index].Some? == v.payload.Some?
      && (v.payload.Some? ==> Typed(cases[v.index].value, v.payload.value))
    case Enum(count) => v.Label? && v.choice < count
    case Flags(count) => v.FlagSet? && 0 < count <= 32 && v.bits < Pow2(count)
    case Handle(_) => v.HandleOf?
  }

  predicate TypedFields(t: Ty, vs: seq<Val>, n: nat)
    requires t.Fields? && |vs| == |t.fields| && n <= |vs|
    decreases t, n
  {
    n == 0 || (TypedFields(t, vs, n - 1) && Typed(t.fields[n - 1], vs[n - 1]))
  }

  lemma {:induction false} TypedField(t: Ty, vs: seq<Val>, n: nat, i: nat)
    requires t.Fields? && |vs| == |t.fields| && i < n <= |vs| && TypedFields(t, vs, n)
    ensures Typed(t.fields[i], vs[i])
  {
    if i < n - 1 {
      TypedField(t, vs, n - 1, i);
    }
  }

  /** No string and no list inside. */
  predicate Static(t: Ty)
    decreases t, Arity(t) + 1
  {
    match t
    case Str => false
    case List(_) => false
    case Fields(_, fields) => StaticFields(t, |fields|)
    case Cases(_, cases) => StaticCases(t, |cases|)
    case _ => true
  }

  predicate StaticFields(t: Ty, n: nat)
    requires t.Fields? && n <= |t.fields|
    decreases t, n
  {
    n == 0 || (StaticFields(t, n - 1) && Static(t.fields[n - 1]))
  }

  predicate StaticCases(t: Ty, n: nat)
    requires t.Cases? && n <= |t.cases|
    decreases t, n
  {
    n == 0 || (StaticCases(t, n - 1) && (t.cases[n - 1].None? || Static(t.cases[n - 1].value)))
  }

  lemma {:induction false} StaticField(t: Ty, n: nat, i: nat)
    requires t.Fields? && i < n <= |t.fields| && StaticFields(t, n)
    ensures Static(t.fields[i])
  {
    if i < n - 1 {
      StaticField(t, n - 1, i);
    }
  }

  lemma {:induction false} StaticCase(t: Ty, n: nat, i: nat)
    requires t.Cases? && i < n <= |t.cases| && StaticCases(t, n) && t.cases[i].Some?
    ensures Static(t.cases[i].value)
  {
    if i < n - 1 {
      StaticCase(t, n - 1, i);
    }
  }

  // ---------------------------------------------------------------- flat

  lemma {:induction false} FieldsFlatTotal(h: Heap, t: Ty, ptr: Pointer, depth: nat, capacity: nat, i: nat,
      vs: seq<Val>)
    requires t.Fields? && |vs| == |t.fields| && i <= |vs| && TypedFields(t, vs, |vs|) && StaticFields(t, |vs|)
    requires ShallowFields(t, depth, i) && |FlatFrom(t, ptr, i)| <= CAP && |FlatFrom(t, ptr, i)| <= capacity
    ensures LowerFlatFields(h, t, ptr, depth, capacity, i, vs).Good?
    decreases t, |vs| - i
  {
    hide Flatten, Shallow, LowerFlat, Typed, TypedFields, Static, StaticFields;
    if i < |vs| {
      TypedField(t, vs, |vs|, i);
      StaticField(t, |vs|, i);
      FlatTotal(h, t.fields[i], ptr, depth + 1, capacity, vs[i]);
      ValueCarried(h, [], t.fields[i], ptr, depth + 1, capacity, vs[i]);
      var part := LowerFlat(h, t.fields[i], ptr, depth + 1, capacity, vs[i]).v;
      FieldsFlatTotal(part.heap, t, ptr, depth, capacity - |part.cores|, i + 1, vs);
    }
  }

  lemma {:induction false} CaseFlatTotal(h: Heap, t: Ty, ptr: Pointer, depth: nat, capacity: nat, v: Val)
    requires t.Cases? && Typed(t, v) && Static(t) && Shallow(t, depth) && |Flatten(t, ptr)| <= CAP
    requires |Flatten(t, ptr)| <= capacity
    ensures LowerFlat(h, t, ptr, depth, capacity, v).Good?
    decreases t, Arity(t) + 1
  {
    hide FlattenOf, Cut, CoerceAll, JoinCases, Nesting;
    CaseDepth(t, depth);
    FlattenExact(t, ptr, depth);
    CutShort(Flatten(t, ptr));
    var joined := JoinCases(t, ptr, |t.cases|);
    assert Flatten(t, ptr)[1..] == joined;
    if v.payload.None? {
      CoerceAllBack([], joined, []);
    } else {
      var f := t.cases[v.index].value;
      JoinHolds(t, ptr, |t.cases|, v.index);
      CaseShallow(t, depth, v.index);
      StaticCase(t, |t.cases|, v.index);
      FlattenExact(f, ptr, depth + 1);
      CutShort(Flatten(f, ptr));
      FlatTotal(h, f, ptr, depth + 1, CAP, v.payload.value);
      ValueCarried(h, [], f, ptr, depth + 1, CAP, v.payload.value);
      CoerceAllBack(Flatten(f, ptr), joined, LowerFlat(h, f, ptr, depth + 1, CAP, v.payload.value).v.cores);
    }
  }

  lemma {:induction false} CaseShallow(t: Ty, depth: nat, i: nat)
    requires t.Cases? && i < |t.cases| && t.cases[i].Some? && Shallow(t, depth)
    ensures Shallow(t.cases[i].value, depth + 1) && depth < MAX_DEPTH
  {
    CaseNestingBound(t, |t.cases|, depth + 1);
  }

  lemma {:induction false} FieldsShallow(t: Ty, depth: nat)
    requires t.Fields? && Shallow(t, depth)
    ensures ShallowFields(t, depth, 0) && depth < MAX_DEPTH && t.fields != []
  {
    NestingBound(t, |t.fields|, depth + 1);
  }

  /** A well-typed value without strings and lists always has a flat form. */
  lemma {:induction false} FlatTotal(h: Heap, t: Ty, ptr: Pointer, depth: nat, capacity: nat, v: Val)
    requires Typed(t, v) && Static(t) && Shallow(t, depth) && |Flatten(t, ptr)| <= CAP && |Flatten(t, ptr)| <= capacity
    ensures LowerFlat(h, t, ptr, depth, capacity, v).Good?
    decreases t, Arity(t) + 2
  {
    CaseDepth(t, depth);
    match t
    case Fields(_, fields) =>
      hide LowerFlatFields, FlattenFields;
      FieldsShallow(t, depth);
      FlatSplit(t, ptr, 0);
      assert FlattenFields(t, ptr, 0) == [] by {
        FlatNone(t, ptr);
      }
      FieldsFlatTotal(h, t, ptr, depth, capacity, 0, v.members);
    case Cases(_, _) =>
      hide LowerFlat;
      CaseFlatTotal(h, t, ptr, depth, capacity, v);
    case _ =>
      hide Pow2, Fits, ScalarCore;
  }

  lemma {:induction false} FlatNone(t: Ty, ptr: Pointer)
    requires t.Fields?
    ensures FlattenFields(t, ptr, 0) == []
  {
  }

  // ---------------------------------------------------------------- memory

  lemma {:induction false} FieldsLowerTotal(h: Heap, t: Ty, ptr: Pointer, a: nat, depth: nat, i: nat, vs: seq<Val>,
      h0: Heap)
    requires t.Fields? && |vs| == |t.fields| && i <= |vs| && TypedFields(t, vs, |vs|) && StaticFields(t, |vs|)
    requires Place(h0, t, ptr, a) && h0.used <= h.used && |h0.bytes| <= |h.bytes| && ShallowFields(t, depth, i)
    ensures LowerFields(h, t, ptr, a + FieldEnd(t, ptr, i), depth, i, vs).Good?
    decreases t, |vs| - i
  {
    hide AlignUp, Alignment, Size, FieldOffset, FieldEnd, LayoutOf, Owned, Step, LowerAt, Typed, TypedFields, Static;
    hide StaticFields, Shallow, Agrees;
    if i < |vs| {
      TypedField(t, vs, |vs|, i);
      StaticField(t, |vs|, i);
      FieldPlaced(h0, h, t, ptr, a, i);
      var f, o := t.fields[i], FieldOffset(t, ptr, i);
      LowerTotal(h, f, ptr, a + o, depth + 1, vs[i]);
      var h1 := LowerAt(h, f, ptr, a + o, depth + 1, vs[i]).v;
      ValueStored(h, [], f, ptr, a + o, depth + 1, vs[i]);
      StepLengths(h, h1, a + o, Size(f, ptr));
      FieldsLowerTotal(h1, t, ptr, a, depth, i + 1, vs, h0);
    }
  }

  lemma {:induction false} CaseLowerTotal(h: Heap, t: Ty, ptr: Pointer, a: nat, depth: nat, v: Val)
    requires t.Cases? && Typed(t, v) && Static(t) && Shallow(t, depth) && Place(h, t, ptr, a)
    ensures LowerAt(h, t, ptr, a, depth, v).Good?
    decreases t, Arity(t) + 1
  {
    hide AlignUp, Alignment, Size, LayoutOf, Step, Pow256, PayloadOffset, PayloadPlace, Formed, Nesting, Le, Agrees;
    var w := LabelWidth(|t.cases|);
    PayloadPlacement(t, ptr, v.index);
    LabelBound(|t.cases|, v.index);
    NumberBack(h, [], a, w, v.index);
    var h1 := LowerNumber(h, a, w, v.index).v;
    PayloadPlaced(h, h1, t, ptr, a, v.index);
    CaseDepth(t, depth);
    if v.payload.Some? {
      CaseShallow(t, depth, v.index);
      StaticCase(t, |t.cases|, v.index);
      LowerTotal(h1, t.cases[v.index].value, ptr, a + PayloadOffset(t, ptr), depth + 1, v.payload.value);
    }
  }

  lemma {:induction false} CaseDepth(t: Ty, depth: nat)
    requires Shallow(t, depth)
    ensures depth < MAX_DEPTH
  {
    assert Nesting(t) >= 1;
  }

  /** A well-typed value without strings and lists can always be stored at a fit place. */
  lemma {:induction false} LowerTotal(h: Heap, t: Ty, ptr: Pointer, a: nat, depth: nat, v: Val)
    requires Typed(t, v) && Static(t) && Shallow(t, depth) && Place(h, t, ptr, a)
    ensures LowerAt(h, t, ptr, a, depth, v).Good?
    decreases t, Arity(t) + 2
  {
    CaseDepth(t, depth);
    match t
    case Fields(_, fields) =>
      hide LowerFields, AlignUp, Alignment, Size, Place;
      FieldsShallow(t, depth);
      assert FieldEnd(t, ptr, 0) == 0;
      FieldsLowerTotal(h, t, ptr, a, depth, 0, v.members, h);
    case Cases(_, _) =>
      hide LowerAt;
      CaseLowerTotal(h, t, ptr, a, depth, v);
    case _ =>
      hide Pow2, Pow256, Fits, Le, Nesting;
  }
}
