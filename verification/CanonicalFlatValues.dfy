/**
  Component values as flat Core values (src/component_canonical.c; "Flat
  Lowering" and "Flat Lifting" of the Component Model Canonical ABI).
 */
module CanonicalFlatValues {
  import opened Common
  import opened Bytes
  import opened CanonicalLayout
  import opened CanonicalFlatten
  import opened CanonicalMemory
  import opened CanonicalRoundTrip

  /** A Core value: its kind and its bit pattern. */
  datatype Core = Core(kind: Flat, bits: nat)

  function Bound(kind: Flat): (b: nat) {
    if kind == I32 || kind == Float32 then MAX32 + 1 else MAX64 + 1
  }

  predicate Valid(c: Core) {
    c.bits < Bound(c.kind)
  }

  // ---------------------------------------------------------------- scalars

  /** `lower_flat_scalar`: small integers are sign- or zero-extended. */
  function ScalarCore(k: ScalarKind, n: int): (c: Core)
    requires Fits(k, n)
    ensures c.kind == ScalarFlat(k) && Valid(c)
  {
    WidthBounds(k);
    Core(ScalarFlat(k), if n < 0 then n + Bound(ScalarFlat(k)) else n)
  }

  lemma {:induction false} WidthBounds(k: ScalarKind)
    ensures Pow256(Width(k)) <= Bound(ScalarFlat(k))
    ensures Pow256(1) == 256 && Pow256(2) == 65536 && Pow256(4) == MAX32 + 1 && Pow256(8) == MAX64 + 1
  {
    assert Pow256(1) == 256 && Pow256(2) == 65536 && Pow256(3) == 16777216 && Pow256(4) == MAX32 + 1;
    assert Pow256(5) == 256 * Pow256(4) && Pow256(6) == 256 * Pow256(5) && Pow256(7) == 256 * Pow256(6)
        && Pow256(8) == 256 * Pow256(7);
  }

  /** `lift_flat_scalar`: narrow integers keep only their own low bits. */
  function LiftScalar(k: ScalarKind, c: Core): (r: Result<int>) {
    if c.kind != ScalarFlat(k) then Bad(TypeMismatch)
    else if k == Bool || k == Char then FromBits(k, c.bits)
    else FromBits(k, c.bits % Pow256(Width(k)))
  }

  lemma {:induction false} ScalarCoreBack(k: ScalarKind, n: int)
    requires Fits(k, n) && (k == Char ==> UnicodeScalar(n))
    ensures LiftScalar(k, ScalarCore(k, n)) == Good(n)
  {
    WidthBounds(k);
    if k != Bool && k != Char {
      assert ScalarCore(k, n).bits % Pow256(Width(k)) == ToBits(k, n) by {
        Truncate(k, n);
      }
      BitsRoundTrip(k, n);
    }
  }

  lemma {:induction false} Truncate(k: ScalarKind, n: int)
    requires Fits(k, n) && k != Bool && k != Char
    ensures ScalarCore(k, n).bits % Pow256(Width(k)) == ToBits(k, n)
  {
    WidthBounds(k);
  }

  // ---------------------------------------------------------------- carriers

  /** `coerce_lower_variant_carrier`. */
  function CoerceLower(have: Flat, want: Flat, c: Core): (r: Result<Core>) {
    if c.kind != have then Bad(TypeMismatch)
    else if have == want then Good(c)
    else if have == Float32 && want == I32 then Good(Core(I32, c.bits))
    else if have == I32 && want == I64 then Good(Core(I64, c.bits))
    else if have == Float32 && want == I64 then Good(Core(I64, c.bits))
    else if have == Float64 && want == I64 then Good(Core(I64, c.bits))
    else Bad(TypeMismatch)
  }

  /** `coerce_lift_variant_carrier`. */
  function CoerceLift(have: Flat, want: Flat, c: Core): (r: Result<Core>) {
    if c.kind != have then Bad(TypeMismatch)
    else if have == want then Good(c)
    else if have == I32 && want == Float32 then Good(Core(Float32, c.bits))
    else if have == I64 && want == I32 then Good(Core(I32, c.bits % (MAX32 + 1)))
    else if have == I64 && want == Float32 then Good(Core(Float32, c.bits % (MAX32 + 1)))
    else if have == I64 && want == Float64 then Good(Core(Float64, c.bits))
    else Bad(TypeMismatch)
  }

  /** A carrier that is large enough loses no bits. */
  lemma {:induction false} CoerceBack(have: Flat, want: Flat, c: Core)
    requires Holds(have, want) && c.kind == have && Valid(c)
    ensures CoerceLower(have, want, c).Good? && CoerceLower(have, want, c).v.kind == want
    ensures Valid(CoerceLower(have, want, c).v)
    ensures CoerceLift(want, have, CoerceLower(have, want, c).v) == Good(c)
  {
  }

  function CoerceAll(have: seq<Flat>, want: seq<Flat>, cs: seq<Core>): (r: Result<seq<Core>>)
    requires |cs| == |have| && |have| <= |want|
  {
    if want == [] then Good([])
    else
      var first := if cs == [] then Good(Core(want[0], 0)) else CoerceLower(have[0], want[0], cs[0]);
      if first.Bad? then Bad(first.status)
      else
        var rest := CoerceAll(if cs == [] then [] else have[1..], want[1..], if cs == [] then [] else cs[1..]);
        if rest.Bad? then rest else Good([first.v] + rest.v)
  }

  function UncoerceAll(have: seq<Flat>, want: seq<Flat>, cs: seq<Core>): (r: Result<seq<Core>>)
    requires |want| <= |have| == |cs|
  {
    if want == [] then Good([])
    else
      var first := CoerceLift(have[0], want[0], cs[0]);
      if first.Bad? then Bad(first.status)
      else
        var rest := UncoerceAll(have[1..], want[1..], cs[1..]);
        if rest.Bad? then rest else Good([first.v] + rest.v)
  }

  /** The carriers `cs` have the kinds `flat`. */
  predicate OfKinds(cs: seq<Core>, flat: seq<Flat>) {
    |cs| == |flat| && forall i :: 0 <= i < |cs| ==> cs[i].kind == flat[i] && Valid(cs[i])
  }

  lemma {:induction false} CoerceAllBack(have: seq<Flat>, want: seq<Flat>, cs: seq<Core>)
    requires |have| <= |want| && OfKinds(cs, have) && forall i :: 0 <= i < |have| ==> Holds(have[i], want[i])
    ensures CoerceAll(have, want, cs).Good? && OfKinds(CoerceAll(have, want, cs).v, want)
    ensures UncoerceAll(want, have, CoerceAll(have, want, cs).v) == Good(cs)
    decreases |want|
  {
    if want != [] {
      if cs == [] {
        CoerceAllBack([], want[1..], []);
        assert have == [];
      } else {
        CoerceBack(have[0], want[0], cs[0]);
        CoerceAllBack(have[1..], want[1..], cs[1..]);
        var out := CoerceAll(have, want, cs).v;
        assert out[1..] == CoerceAll(have[1..], want[1..], cs[1..]).v;
        assert cs == [cs[0]] + cs[1..];
      }
    }
  }

  // ---------------------------------------------------------------- lowering

  datatype FlatOut = FlatOut(cores: seq<Core>, heap: Heap)

  /** A (pointer, length) pair as two carriers. */
  function PairCores(h: Heap, ptr: Pointer, pointer: nat, length: nat): (r: Result<FlatOut>) {
    var limit := if ptr == 4 then MAX32 else MAX64;
    if pointer > limit || length > limit then Bad(Trapped)
    else Good(FlatOut([Core(PointerFlat(ptr), pointer), Core(PointerFlat(ptr), length)], h))
  }

  function LowerFlat(h: Heap, t: Ty, ptr: Pointer, depth: nat, capacity: nat, v: Val): (r: Result<FlatOut>)
    decreases t, Arity(t) + 1
  {
    if depth >= MAX_DEPTH then Bad(InvalidArgument)
    else
      match t
      case Scalar(k) =>
        if capacity < 1 then Bad(InvalidArgument)
        else if !v.Num? || v.kind != k || !Fits(k, v.n) then Bad(TypeMismatch)
        else if k == Char && !UnicodeScalar(v.n) then Bad(InvalidArgument)
        else Good(FlatOut([ScalarCore(k, v.n)], h))
      case Str =>
        if capacity < 2 then Bad(InvalidArgument)
        else
          var text := LowerText(h, v);
          if text.Bad? then Bad(text.status) else PairCores(text.v.heap, ptr, text.v.pointer, |v.text|)
      case List(_) =>
        if capacity < 2 then Bad(InvalidArgument)
        else
          var list := LowerList(h, t, ptr, depth, v);
          if list.Bad? then Bad(list.status) else PairCores(list.v.heap, ptr, list.v.pointer, |v.items|)
      case Fields(record, fields) =>
        if !v.Members? || v.record != record then Bad(TypeMismatch)
        else if fields == [] then Bad(MalformedModule)
        else if |v.members| != |fields| then Bad(TypeMismatch)
        else LowerFlatFields(h, t, ptr, depth, capacity, 0, v.members)
      case Cases(family, cases) =>
        if !v.Case? || v.family != family || v.index >= |cases| then Bad(TypeMismatch)
        else
          var full := FlattenOf(t, ptr, depth);
          if full.Bad? then Bad(full.status)
          else if full.v == [] || full.v[0] != I32 || capacity < |full.v| then Bad(InvalidArgument)
          else if cases[v.index].Some? != v.payload.Some? then Bad(TypeMismatch)
          else if v.payload.None? then
            var rest := CoerceAll([], full.v[1..], []);
            if rest.Bad? then Bad(rest.status) else Good(FlatOut([Core(I32, v.index)] + rest.v, h))
          else
            var flat := FlattenOf(cases[v.index].value, ptr, depth + 1);
            if flat.Bad? then Bad(flat.status)
            else
              var payload := LowerFlat(h, cases[v.index].value, ptr, depth + 1, CAP, v.payload.value);
              if payload.Bad? then payload
              else if |payload.v.cores| != |flat.v| || |flat.v| > |full.v| - 1 then Bad(MalformedModule)
              else
                var rest := CoerceAll(flat.v, full.v[1..], payload.v.cores);
                if rest.Bad? then Bad(rest.status) else Good(FlatOut([Core(I32, v.index)] + rest.v, payload.v.heap))
      case Enum(count) =>
        if capacity < 1 then Bad(InvalidArgument)
        else if !v.Label? || v.choice >= count then Bad(TypeMismatch) else Good(FlatOut([Core(I32, v.choice)], h))
      case Flags(count) =>
        if capacity < 1 then Bad(InvalidArgument)
        else if !v.FlagSet? || count == 0 || count > 32 || v.bits >= Pow2(count) then Bad(TypeMismatch)
        else Good(FlatOut([Core(I32, v.bits)], h))
      case Handle(_) =>
        if capacity < 1 then Bad(InvalidArgument)
        else if !v.HandleOf? then Bad(TypeMismatch) else Good(FlatOut([Core(I32, v.handle)], h))
  }

  function LowerFlatFields(h: Heap, t: Ty, ptr: Pointer, depth: nat, capacity: nat, i: nat,
      vs: seq<Val>): (r: Result<FlatOut>)
    requires t.Fields? && |vs| == |t.fields| && i <= |vs|
    decreases t, |vs| - i
  {
    if i == |vs| then Good(FlatOut([], h))
    else
      var part := LowerFlat(h, t.fields[i], ptr, depth + 1, capacity, vs[i]);
      if part.Bad? then part
      else if |part.v.cores| > capacity then Bad(InvalidArgument)
      else
        var rest := LowerFlatFields(part.v.heap, t, ptr, depth, capacity - |part.v.cores|, i + 1, vs);
        if rest.Bad? then rest else Good(FlatOut(part.v.cores + rest.v.cores, rest.v.heap))
  }

  // ---------------------------------------------------------------- lifting

  function LiftFlat(m: seq<Byte>, t: Ty, ptr: Pointer, cs: seq<Core>, depth: nat): (r: Result<Val>)
    decreases t, Arity(t) + 1
  {
    if depth >= MAX_DEPTH then Bad(InvalidArgument)
    else
      match t
      case Scalar(k) =>
        if |cs| != 1 then Bad(TypeMismatch)
        else
          var n := LiftScalar(k, cs[0]);
          if n.Bad? then Bad(n.status) else Good(Num(k, n.v))
      case Str =>
        if |cs| != 2 || cs[0].kind != PointerFlat(ptr) || cs[1].kind != PointerFlat(ptr) then Bad(TypeMismatch)
        else LiftText(m, cs[0].bits, cs[1].bits)
      case List(_) =>
        if |cs| != 2 || cs[0].kind != PointerFlat(ptr) || cs[1].kind != PointerFlat(ptr) then Bad(TypeMismatch)
        else LiftList(m, t, ptr, cs[0].bits, cs[1].bits, depth)
      case Fields(record, fields) =>
        if fields == [] then Bad(MalformedModule)
        else
          var vs := LiftFlatFields(m, t, ptr, cs, depth, 0);
          if vs.Bad? then Bad(vs.status) else Good(Members(record, vs.v))
      case Cases(family, cases) =>
        var full := FlattenOf(t, ptr, depth);
        if full.Bad? then Bad(full.status)
        else if |full.v| != |cs| || cs == [] || cs[0].kind != I32 then Bad(TypeMismatch)
        else if cs[0].bits >= |cases| || cs[0].bits > MAX32 then Bad(Trapped)
        else if cases[cs[0].bits].None? then
          if KindsMatch(cs[1..], full.v[1..]) then Good(Case(family, cs[0].bits, None)) else Bad(TypeMismatch)
        else
          var flat := FlattenOf(cases[cs[0].bits].value, ptr, depth + 1);
          if flat.Bad? then Bad(flat.status)
          else if |flat.v| > |cs| - 1 then Bad(MalformedModule)
          else
            var carriers := UncoerceAll(full.v[1..], flat.v, cs[1..]);
            if carriers.Bad? then Bad(carriers.status)
            else
              var payload := LiftFlat(m, cases[cs[0].bits].value, ptr, carriers.v, depth + 1);
              if payload.Bad? then payload
              else if KindsMatch(cs[1..], full.v[1..]) then Good(Case(family, cs[0].bits, Some(payload.v)))
              else Bad(TypeMismatch)
      case Enum(count) =>
        if |cs| != 1 || cs[0].kind != I32 then Bad(TypeMismatch)
        else if count == 0 || cs[0].bits >= count || cs[0].bits > MAX32 then Bad(Trapped) else Good(Label(cs[0].bits))
      case Flags(count) =>
        if |cs| != 1 || cs[0].kind != I32 then Bad(TypeMismatch)
        else if count == 0 || count > 32 || cs[0].bits >= Pow2(count) || cs[0].bits > MAX32 then Bad(Trapped)
        else Good(FlagSet(cs[0].bits))
      case Handle(_) =>
        if |cs| != 1 || cs[0].kind != I32 || cs[0].bits > MAX32 then Bad(TypeMismatch) else Good(HandleOf(cs[0].bits))
  }

  predicate KindsMatch(cs: seq<Core>, flat: seq<Flat>) {
    |cs| == |flat| && forall i :: 0 <= i < |cs| ==> cs[i].kind == flat[i]
  }

  function LiftFlatFields(m: seq<Byte>, t: Ty, ptr: Pointer, cs: seq<Core>, depth: nat, i: nat): (r: Result<seq<Val>>)
    requires t.Fields? && i <= |t.fields|
    decreases t, |t.fields| - i
  {
    if i == |t.fields| then (if cs == [] then Good([]) else Bad(TypeMismatch))
    else
      var flat := FlattenOf(t.fields[i], ptr, depth + 1);
      if flat.Bad? then Bad(flat.status)
      else if |flat.v| > |cs| then Bad(TypeMismatch)
      else
        var first := LiftFlat(m, t.fields[i], ptr, cs[..|flat.v|], depth + 1);
        if first.Bad? then Bad(first.status)
        else
          var rest := LiftFlatFields(m, t, ptr, cs[|flat.v|..], depth, i + 1);
          if rest.Bad? then rest else Good([first.v] + rest.v)
  }

  // ---------------------------------------------------------------- round trip

  /** Between `h` and `out.heap` the value `v` became `out.cores`: they are of the
      flattened kinds, and lift to `v` from every memory that keeps what was written. */
  ghost predicate Carried(h: Heap, out: FlatOut, m: seq<Byte>, t: Ty, ptr: Pointer, depth: nat, v: Val) {
    && Step(h, out.heap, 0, 0) && OfKinds(out.cores, Flatten(t, ptr))
    && (Agrees(h, out.heap, m, 0, 0) ==> LiftFlat(m, t, ptr, out.cores, depth) == Good(v))
  }

  lemma {:induction false} ChainNowhere(h0: Heap, h1: Heap, h2: Heap, m: seq<Byte>)
    requires Step(h0, h1, 0, 0) && Step(h1, h2, 0, 0)
    ensures Step(h0, h2, 0, 0)
    ensures Agrees(h0, h2, m, 0, 0) ==> Agrees(h0, h1, m, 0, 0) && Agrees(h1, h2, m, 0, 0)
  {
  }

  lemma {:induction false} TextCarried(h: Heap, m: seq<Byte>, t: Ty, ptr: Pointer, depth: nat, capacity: nat, v: Val)
    requires t.Str? && LowerFlat(h, t, ptr, depth, capacity, v).Good?
    ensures Carried(h, LowerFlat(h, t, ptr, depth, capacity, v).v, m, t, ptr, depth, v)
  {
    hide Step, Agrees, Owned, Allocate;
    var alloc := Allocate(h, |v.text|).v;
    AllocateStep(h, |v.text|);
    var h1, p := alloc.heap, alloc.pointer;
    WriteStep(h1, p, v.text);
    var h2 := LowerText(h, v).v.heap;
    StepSame(h2, 0, 0);
    OwnedNowhere(h);
    ChainFresh(h, h1, h2, h2, m, 0, 0, p, |v.text|);
    if Agrees(h, h2, m, 0, 0) {
      ReadBack(h1, h2, m, p, |v.text|, p, |v.text|);
    }
  }

  lemma {:induction false} OwnedNowhere(h: Heap)
    ensures Owned(h, 0, 0)
  {
  }

  lemma {:induction false} ListRange(h: Heap, m: seq<Byte>, t: Ty, ptr: Pointer, depth: nat, v: Val)
    requires t.List? && LowerList(h, t, ptr, depth, v).Good?
    ensures v.Items?
    ensures var out := LowerList(h, t, ptr, depth, v).v;
            Step(h, out.heap, 0, 0)
              && (Agrees(h, out.heap, m, 0, 0) ==> LiftList(m, t, ptr, out.pointer, |v.items|, depth) == Good(v))
  {
    hide AlignUp, Alignment, Size, LayoutOf, Owned, Step, Agrees, LowerItems, LiftItems, Formed, Nesting, Allocate;
    var e := t.element;
    LayoutExact(e, ptr, 0);
    SizeFacts(e, ptr);
    var s := Size(e, ptr);
    var size := |v.items| * s;
    var alloc := Allocate(h, size).v;
    AllocateStep(h, size);
    var h1, p := alloc.heap, alloc.pointer;
    var h2 := LowerItems(h1, t, ptr, p, s, depth, v.items).v;
    ItemsStored(h1, m, t, ptr, p, depth, v.items);
    StepLengths(h1, h2, p, size);
    StepSame(h2, 0, 0);
    OwnedNowhere(h);
    ChainFresh(h, h1, h2, h2, m, 0, 0, p, size);
    if Agrees(h, h2, m, 0, 0) {
      Lengths(h, h1, h2, m, 0, 0, p, size);
      assert LiftItems(m, t, ptr, p, s, depth, |v.items|) == Good(v.items);
    }
  }

  lemma {:induction false} ListCarried(h: Heap, m: seq<Byte>, t: Ty, ptr: Pointer, depth: nat, capacity: nat, v: Val)
    requires t.List? && LowerFlat(h, t, ptr, depth, capacity, v).Good?
    ensures Carried(h, LowerFlat(h, t, ptr, depth, capacity, v).v, m, t, ptr, depth, v)
  {
    hide Step, Agrees, LowerList, LiftList;
    ListRange(h, m, t, ptr, depth, v);
  }

  lemma {:induction false} PlainCarried(h: Heap, m: seq<Byte>, t: Ty, ptr: Pointer, depth: nat, capacity: nat, v: Val)
    requires (t.Scalar? || t.Enum? || t.Flags? || t.Handle?) && LowerFlat(h, t, ptr, depth, capacity, v).Good?
    ensures Carried(h, LowerFlat(h, t, ptr, depth, capacity, v).v, m, t, ptr, depth, v)
  {
    hide Step, Agrees, ScalarCore, LiftScalar, Pow2, Fits;
    StepSame(h, 0, 0);
    if t.Scalar? {
      ScalarCoreBack(t.scalar, v.n);
    }
  }

  // Records and tuples.

  function FlatFrom(t: Ty, ptr: Pointer, i: nat): (r: seq<Flat>)
    requires t.Fields? && i <= |t.fields|
    decreases |t.fields| - i
  {
    if i == |t.fields| then [] else Flatten(t.fields[i], ptr) + FlatFrom(t, ptr, i + 1)
  }

  lemma {:induction false} FlatSplit(t: Ty, ptr: Pointer, i: nat)
    requires t.Fields? && i <= |t.fields|
    ensures FlattenFields(t, ptr, |t.fields|) == FlattenFields(t, ptr, i) + FlatFrom(t, ptr, i)
    decreases |t.fields| - i
  {
    hide Flatten;
    if i < |t.fields| {
      FlatSplit(t, ptr, i + 1);
    }
  }

  lemma {:induction false} FieldsCarried(h: Heap, m: seq<Byte>, t: Ty, ptr: Pointer, depth: nat, capacity: nat, i: nat,
      vs: seq<Val>)
    requires t.Fields? && |vs| == |t.fields| && i <= |vs| && |FlatFrom(t, ptr, i)| <= CAP && ShallowFields(t, depth, i)
    requires LowerFlatFields(h, t, ptr, depth, capacity, i, vs).Good?
    ensures var out := LowerFlatFields(h, t, ptr, depth, capacity, i, vs).v;
            && Step(h, out.heap, 0, 0) && OfKinds(out.cores, FlatFrom(t, ptr, i))
            && (Agrees(h, out.heap, m, 0, 0) ==> LiftFlatFields(m, t, ptr, out.cores, depth, i) == Good(vs[i..]))
    decreases t, |vs| - i
  {
    hide Flatten, FlattenOf, Step, Agrees, LowerFlat, LiftFlat, Shallow, Cut;
    if i == |vs| {
      StepSame(h, 0, 0);
      assert vs[i..] == [];
    } else {
      var part := LowerFlat(h, t.fields[i], ptr, depth + 1, capacity, vs[i]).v;
      ValueCarried(h, m, t.fields[i], ptr, depth + 1, capacity, vs[i]);
      FieldsCarried(part.heap, m, t, ptr, depth, capacity - |part.cores|, i + 1, vs);
      var rest := LowerFlatFields(part.heap, t, ptr, depth, capacity - |part.cores|, i + 1, vs).v;
      ChainNowhere(h, part.heap, rest.heap, m);
      FlattenExact(t.fields[i], ptr, depth + 1);
      CutShort(Flatten(t.fields[i], ptr));
      assert (part.cores + rest.cores)[..|part.cores|] == part.cores
          && (part.cores + rest.cores)[|part.cores|..] == rest.cores;
      assert vs[i..] == [vs[i]] + vs[i + 1..];
    }
  }

  lemma {:induction false} RecordCarried(h: Heap, m: seq<Byte>, t: Ty, ptr: Pointer, depth: nat, capacity: nat, v: Val)
    requires t.Fields? && |Flatten(t, ptr)| <= CAP && Shallow(t, depth)
    requires LowerFlat(h, t, ptr, depth, capacity, v).Good?
    ensures Carried(h, LowerFlat(h, t, ptr, depth, capacity, v).v, m, t, ptr, depth, v)
    decreases t, Arity(t) + 1
  {
    hide Step, Agrees, LowerFlatFields, LiftFlatFields;
    FlatSplit(t, ptr, 0);
    assert FlattenFields(t, ptr, 0) + FlatFrom(t, ptr, 0) == FlatFrom(t, ptr, 0);
    NestingBound(t, |t.fields|, depth + 1);
    FieldsCarried(h, m, t, ptr, depth, capacity, 0, v.members);
    assert v.members[0..] == v.members;
  }

  // Variants.

  lemma {:induction false} CaseCarried(h: Heap, m: seq<Byte>, t: Ty, ptr: Pointer, depth: nat, capacity: nat, v: Val)
    requires t.Cases? && |Flatten(t, ptr)| <= CAP && Shallow(t, depth) && LowerFlat(h, t, ptr, depth, capacity, v).Good?
    ensures Carried(h, LowerFlat(h, t, ptr, depth, capacity, v).v, m, t, ptr, depth, v)
    decreases t, Arity(t) + 1
  {
    hide Step, Agrees, FlattenOf, Cut, CoerceAll, UncoerceAll, JoinCases;
    FlattenExact(t, ptr, depth);
    CutShort(Flatten(t, ptr));
    var full, joined := Flatten(t, ptr), JoinCases(t, ptr, |t.cases|);
    assert full[1..] == joined;
    if v.payload.None? {
      StepSame(h, 0, 0);
      CoerceAllBack([], joined, []);
    } else {
      var f := t.cases[v.index].value;
      JoinHolds(t, ptr, |t.cases|, v.index);
      CaseNestingBound(t, |t.cases|, depth + 1);
      FlattenExact(f, ptr, depth + 1);
      CutShort(Flatten(f, ptr));
      ValueCarried(h, m, f, ptr, depth + 1, CAP, v.payload.value);
      var payload := LowerFlat(h, f, ptr, depth + 1, CAP, v.payload.value).v;
      CoerceAllBack(Flatten(f, ptr), joined, payload.cores);
    }
    var out := LowerFlat(h, t, ptr, depth, capacity, v).v;
    assert out.cores[0] == Core(I32, v.index);
    assert out.cores[1..] == CoerceAll(if v.payload.None? then [] else Flatten(t.cases[v.index].value, ptr), joined,
                                       if v.payload.None? then []
                                       else LowerFlat(h, t.cases[v.index].value, ptr, depth + 1, CAP,
                                                      v.payload.value).v.cores).v;
  }

  /** Flat lowering yields exactly the flattened carrier kinds, and flat lifting
      gives the value back, joined and coerced carriers included. */
  lemma {:induction false} ValueCarried(h: Heap, m: seq<Byte>, t: Ty, ptr: Pointer, depth: nat, capacity: nat, v: Val)
    requires |Flatten(t, ptr)| <= CAP && Shallow(t, depth) && LowerFlat(h, t, ptr, depth, capacity, v).Good?
    ensures Carried(h, LowerFlat(h, t, ptr, depth, capacity, v).v, m, t, ptr, depth, v)
    decreases t, Arity(t) + 2
  {
    hide LowerFlat, LiftFlat, Carried;
    match t
    case Str => TextCarried(h, m, t, ptr, depth, capacity, v);
    case List(_) => ListCarried(h, m, t, ptr, depth, capacity, v);
    case Fields(_, _) => RecordCarried(h, m, t, ptr, depth, capacity, v);
    case Cases(_, _) => CaseCarried(h, m, t, ptr, depth, capacity, v);
    case _ => PlainCarried(h, m, t, ptr, depth, capacity, v);
  }
}
