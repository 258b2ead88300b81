/**
  Flattening types into Core value kinds (src/component_canonical.c;
  "Flattening" of the Component Model Canonical ABI). The code never keeps more
  than 17 carriers; that loses nothing that any decision depends on.
 */
module CanonicalFlatten {
  import opened Common
  import opened CanonicalLayout

  datatype Flat = I32 | I64 | Float32 | Float64

  const MAX_FLAT_PARAMS := 16
  const MAX_FLAT_ASYNC_PARAMS := 4
  const MAX_FLAT_RESULTS := 1
  const CAP := 17

  function ScalarFlat(k: ScalarKind): Flat {
    match k
    case S64 => I64 case U64 => I64
    case F32 => Float32 case F64 => Float64
    case _ => I32
  }

  function PointerFlat(ptr: Pointer): Flat {
    if ptr == 8 then I64 else I32
  }

  /** `join_flat_type`. */
  function Join(a: Flat, b: Flat): Flat {
    if a == b then a
    else if (a == I32 && b == Float32) || (a == Float32 && b == I32) then I32
    else I64
  }

  /** A carrier of kind `b` holds every value of kind `a`. */
  predicate Holds(a: Flat, b: Flat) {
    a == b || b == I64 || (a == Float32 && b == I32)
  }

  /** The join is the least upper bound of its arguments. */
  lemma {:induction false} JoinLeast(a: Flat, b: Flat, c: Flat)
    ensures Holds(a, Join(a, b)) && Holds(b, Join(a, b))
    ensures Holds(a, c) && Holds(b, c) ==> Holds(Join(a, b), c)
    ensures Join(a, b) == Join(b, a)
  {
  }

  // ---------------------------------------------------------------- the unbounded definition

  /** Position by position, the longer one's tail unchanged. */
  function Merge(a: seq<Flat>, b: seq<Flat>): (r: seq<Flat>)
    ensures |r| == Max(|a|, |b|)
    ensures forall i :: 0 <= i < |r| ==>
              r[i] == if i < |a| && i < |b| then Join(a[i], b[i]) else if i < |a| then a[i] else b[i]
  {
    seq(Max(|a|, |b|), i requires 0 <= i < Max(|a|, |b|) =>
      if i < |a| && i < |b| then Join(a[i], b[i]) else if i < |a| then a[i] else b[i])
  }

  function Flatten(t: Ty, ptr: Pointer): (r: seq<Flat>)
    decreases t, Arity(t) + 1
  {
    match t
    case Scalar(k) => [ScalarFlat(k)]
    case Str => [PointerFlat(ptr), PointerFlat(ptr)]
    case List(_) => [PointerFlat(ptr), PointerFlat(ptr)]
    case Fields(_, fields) => FlattenFields(t, ptr, |fields|)
    case Cases(_, cases) => [I32] + JoinCases(t, ptr, |cases|)
    case _ => [I32]
  }

  function FlattenFields(t: Ty, ptr: Pointer, n: nat): (r: seq<Flat>)
    requires t.Fields? && n <= |t.fields|
    decreases t, n
  {
    if n == 0 then [] else FlattenFields(t, ptr, n - 1) + Flatten(t.fields[n - 1], ptr)
  }

  function JoinCases(t: Ty, ptr: Pointer, n: nat): (r: seq<Flat>)
    requires t.Cases? && n <= |t.cases|
    decreases t, n
  {
    if n == 0 then []
    else if t.cases[n - 1].None? then JoinCases(t, ptr, n - 1)
    else Merge(JoinCases(t, ptr, n - 1), Flatten(t.cases[n - 1].value, ptr))
  }

  // ---------------------------------------------------------------- the bounded computation

  function Cut(s: seq<Flat>): (r: seq<Flat>)
    ensures |r| <= CAP && r <= s && (|s| <= CAP ==> r == s) && (|s| > CAP ==> |r| == CAP)
  {
    if |s| <= CAP then s else s[..CAP]
  }

  /** `append_flat_capped`. */
  function Append(out: seq<Flat>, part: seq<Flat>): (r: seq<Flat>)
    requires |out| <= CAP
    ensures |r| <= CAP
  {
    out + part[..Min(|part|, CAP - |out|)]
  }

  function FlattenOf(t: Ty, ptr: Pointer, depth: nat): (r: Result<seq<Flat>>)
    ensures r.Good? ==> |r.v| <= CAP
    decreases t, Arity(t) + 1
  {
    if depth >= MAX_DEPTH then Bad(Unsupported)
    else
      match t
      case Scalar(k) => Good([ScalarFlat(k)])
      case Str => Good([PointerFlat(ptr), PointerFlat(ptr)])
      case List(_) => Good([PointerFlat(ptr), PointerFlat(ptr)])
      case Fields(_, fields) => if fields == [] then Bad(MalformedModule) else FieldsFlat(t, ptr, depth, 0, [])
      case Cases(_, cases) => if cases == [] then Bad(MalformedModule) else CasesFlat(t, ptr, depth, 0, [])
      case Enum(count) => if count == 0 then Bad(MalformedModule) else Good([I32])
      case Flags(count) => if count == 0 || count > 32 then Bad(MalformedModule) else Good([I32])
      case Handle(_) => Good([I32])
  }

  function FieldsFlat(t: Ty, ptr: Pointer, depth: nat, i: nat, out: seq<Flat>): (r: Result<seq<Flat>>)
    requires t.Fields? && i <= |t.fields| && depth < MAX_DEPTH && |out| <= CAP
    ensures r.Good? ==> |r.v| <= CAP
    decreases t, |t.fields| - i
  {
    if i == |t.fields| then Good(out)
    else
      var part := FlattenOf(t.fields[i], ptr, depth + 1);
      if part.Bad? then part else FieldsFlat(t, ptr, depth, i + 1, Append(out, part.v))
  }

  function CasesFlat(t: Ty, ptr: Pointer, depth: nat, i: nat, joined: seq<Flat>): (r: Result<seq<Flat>>)
    requires t.Cases? && i <= |t.cases| && depth < MAX_DEPTH && |joined| <= CAP
    ensures r.Good? ==> |r.v| <= CAP
    decreases t, |t.cases| - i
  {
    if i == |t.cases| then Good(Append([I32], joined))
    else if t.cases[i].None? then CasesFlat(t, ptr, depth, i + 1, joined)
    else
      var part := FlattenOf(t.cases[i].value, ptr, depth + 1);
      if part.Bad? then part else CasesFlat(t, ptr, depth, i + 1, Cut(Merge(joined, part.v)))
  }

  // ---------------------------------------------------------------- nothing is lost

  lemma {:induction false} AppendCut(a: seq<Flat>, b: seq<Flat>)
    ensures Append(Cut(a), Cut(b)) == Cut(a + b)
  {
    assert |Append(Cut(a), Cut(b))| == |Cut(a + b)|;
    forall i | 0 <= i < |Cut(a + b)|
      ensures Append(Cut(a), Cut(b))[i] == Cut(a + b)[i]
    {
    }
  }

  lemma {:induction false} MergeCut(a: seq<Flat>, b: seq<Flat>)
    ensures Cut(Merge(Cut(a), Cut(b))) == Cut(Merge(a, b))
  {
    var l, r := Cut(Merge(Cut(a), Cut(b))), Cut(Merge(a, b));
    assert |l| == |r|;
    forall i | 0 <= i < |r|
      ensures l[i] == r[i]
    {
    }
  }

  predicate Shallow(t: Ty, depth: nat) {
    Formed(t) && depth + Nesting(t) <= MAX_DEPTH
  }

  predicate ShallowFields(t: Ty, depth: nat, i: nat)
    requires t.Fields?
  {
    forall j :: i <= j < |t.fields| ==> Shallow(t.fields[j], depth + 1)
  }

  predicate ShallowCases(t: Ty, depth: nat, i: nat)
    requires t.Cases?
  {
    forall j :: i <= j < |t.cases| && t.cases[j].Some? ==> Shallow(t.cases[j].value, depth + 1)
  }

  lemma {:induction false} FieldsFlatExact(t: Ty, ptr: Pointer, depth: nat, i: nat)
    requires t.Fields? && i <= |t.fields| && depth < MAX_DEPTH
    ensures var r := FieldsFlat(t, ptr, depth, i, Cut(FlattenFields(t, ptr, i)));
            (r.Good? <==> ShallowFields(t, depth, i)) && (r.Good? ==> r.v == Cut(FlattenFields(t, ptr, |t.fields|)))
    decreases t, |t.fields| - i
  {
    hide Cut, Append, FlattenOf, Flatten, Shallow;
    if i < |t.fields| {
      FlattenExact(t.fields[i], ptr, depth + 1);
      FieldsFlatExact(t, ptr, depth, i + 1);
      AppendCut(FlattenFields(t, ptr, i), Flatten(t.fields[i], ptr));
    }
  }

  lemma {:induction false} CasesFlatExact(t: Ty, ptr: Pointer, depth: nat, i: nat)
    requires t.Cases? && i <= |t.cases| && depth < MAX_DEPTH
    ensures var r := CasesFlat(t, ptr, depth, i, Cut(JoinCases(t, ptr, i)));
            (r.Good? <==> ShallowCases(t, depth, i)) && (r.Good? ==> r.v == Cut([I32] + JoinCases(t, ptr, |t.cases|)))
    decreases t, |t.cases| - i
  {
    hide Cut, Append, FlattenOf, Flatten, Shallow, Merge;
    if i < |t.cases| {
      CasesFlatExact(t, ptr, depth, i + 1);
      if t.cases[i].Some? {
        FlattenExact(t.cases[i].value, ptr, depth + 1);
        MergeCut(JoinCases(t, ptr, i), Flatten(t.cases[i].value, ptr));
      }
    } else {
      AppendCut([I32], JoinCases(t, ptr, i));
      assert Cut([I32]) == [I32] by {
        CutShort([I32]);
      }
    }
  }

  lemma {:induction false} CutShort(s: seq<Flat>)
    requires |s| <= CAP
    ensures Cut(s) == s
  {
  }

  /** Flattening succeeds exactly on well-formed types within the recursion bound,
      and yields the first 17 carriers of the unbounded flattening. */
  lemma {:induction false} FlattenExact(t: Ty, ptr: Pointer, depth: nat)
    ensures FlattenOf(t, ptr, depth).Good? <==> Shallow(t, depth)
    ensures FlattenOf(t, ptr, depth).Good? ==> FlattenOf(t, ptr, depth).v == Cut(Flatten(t, ptr))
    decreases t, Arity(t) + 1
  {
    if depth < MAX_DEPTH {
      match t
      case Fields(_, fields) =>
        FieldsFlatExact(t, ptr, depth, 0);
        NestingBound(t, |fields|, depth + 1);
      case Cases(_, cases) =>
        CasesFlatExact(t, ptr, depth, 0);
        CaseNestingBound(t, |cases|, depth + 1);
      case _ =>
    } else {
      assert Nesting(t) >= 1;
    }
  }

  /** The folded join is an upper bound of every case. */
  lemma {:induction false} JoinHolds(t: Ty, ptr: Pointer, n: nat, i: nat)
    requires t.Cases? && i < n <= |t.cases| && t.cases[i].Some?
    ensures var part, joined := Flatten(t.cases[i].value, ptr), JoinCases(t, ptr, n);
            |part| <= |joined| && forall k :: 0 <= k < |part| ==> Holds(part[k], joined[k])
  {
    if i < n - 1 {
      JoinHolds(t, ptr, n - 1, i);
    }
  }
}
