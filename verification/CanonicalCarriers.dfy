/**
  What values look like as flat Core values, bit by bit and independently of the
  code that lowers and lifts them (src/component_canonical.c; "Flat Lowering" and
  "Flat Lifting" of the Component Model Canonical ABI).
 */
module CanonicalCarriers {
  import opened Common
  import opened Bytes
  import opened CanonicalLayout
  import opened CanonicalLeast
  import opened CanonicalFlatten
  import opened CanonicalMemory
  import opened CanonicalRoundTrip
  import opened CanonicalValues
  import opened CanonicalImage
  import opened CanonicalFlatValues
  import CanonicalTotal

  // ---------------------------------------------------------------- single carriers

  /** The number that 32 or 64 bits stand for in two's complement. */
  function Signed32(bits: nat): int {
    if bits < 2147483648 then bits else bits - 4294967296
  }

  function Signed64(bits: nat): int {
    if bits < 9223372036854775808 then bits else bits - 18446744073709551616
  }

  /** The carrier that a number is lowered to: signed numbers as the same number
      of the carrier's width, all others as their bits. */
  ghost predicate CoreIs(c: Core, k: ScalarKind, n: int) {
    match k
    case S8 => c.kind == I32 && c.bits < 4294967296 && Signed32(c.bits) == n
    case S16 => c.kind == I32 && c.bits < 4294967296 && Signed32(c.bits) == n
    case S32 => c.kind == I32 && c.bits < 4294967296 && Signed32(c.bits) == n
    case S64 => c.kind == I64 && c.bits < 18446744073709551616 && Signed64(c.bits) == n
    case U64 => c.kind == I64 && c.bits == n
    case F32 => c.kind == Float32 && c.bits == n
    case F64 => c.kind == Float64 && c.bits == n
    case _ => c.kind == I32 && c.bits == n
  }

  /** Lowering a number keeps it: sign extension for the signed kinds, the plain
      bits for every other. */
  lemma {:induction false} ScalarKept(k: ScalarKind, n: int)
    requires Fits(k, n)
    ensures CoreIs(ScalarCore(k, n), k, n)
  {
    WidthBounds(k);
    hide Pow256;
  }

  /** The numbers that lifting reads off a carrier: of narrow kinds only the low
      bits count. */
  ghost predicate CoreReads(c: Core, k: ScalarKind, n: int) {
    match k
    case Bool => c.kind == I32 && c.bits == n <= 1
    case Char => c.kind == I32 && c.bits == n <= 1114111 && !(55296 <= n <= 57343)
    case S8 => c.kind == I32 && -128 <= n < 128 && (c.bits - n) % 256 == 0
    case U8 => c.kind == I32 && 0 <= n < 256 && (c.bits - n) % 256 == 0
    case S16 => c.kind == I32 && -32768 <= n < 32768 && (c.bits - n) % 65536 == 0
    case U16 => c.kind == I32 && 0 <= n < 65536 && (c.bits - n) % 65536 == 0
    case S32 => c.kind == I32 && Signed32(c.bits) == n
    case U32 => c.kind == I32 && c.bits == n
    case S64 => c.kind == I64 && Signed64(c.bits) == n
    case U64 => c.kind == I64 && c.bits == n
    case F32 => c.kind == Float32 && c.bits == n
    case F64 => c.kind == Float64 && c.bits == n
  }

  lemma {:induction false} NarrowBits(k: ScalarKind, bits: nat, n: int)
    requires k in {S8, U8, S16, U16}
    ensures OfKind(k, n, bits % Pow256(Width(k))) <==> CoreReads(Core(I32, bits), k, n)
  {
    Powers();
    hide Pow256;
    if -128 <= n < 256 {
      LowDigits(bits, n, 256);
    }
    if -32768 <= n < 65536 {
      LowDigits(bits, n, 65536);
    }
  }

  lemma {:induction false} LowDigits(bits: nat, n: int, m: int)
    requires (m == 256 || m == 65536) && -m <= n < m
    ensures (bits - n) % m == 0 <==> bits % m == if n < 0 then n + m else n
  {
    if m == 256 {
      LowByte(bits, n);
    } else {
      LowPair(bits, n);
    }
  }

  lemma {:induction false} LowByte(bits: nat, n: int)
    requires -256 <= n < 256
    ensures (bits - n) % 256 == 0 <==> bits % 256 == if n < 0 then n + 256 else n
  {
    var q, r, d := bits / 256, bits % 256, (bits - n) / 256;
    assert bits == 256 * q + r;
    assert bits - n == 256 * d + (bits - n) % 256;
  }

  lemma {:induction false} LowPair(bits: nat, n: int)
    requires -65536 <= n < 65536
    ensures (bits - n) % 65536 == 0 <==> bits % 65536 == if n < 0 then n + 65536 else n
  {
    var q, r, d := bits / 65536, bits % 65536, (bits - n) / 65536;
    assert bits == 65536 * q + r;
    assert bits - n == 65536 * d + (bits - n) % 65536;
  }

  lemma {:induction false} WideBits(k: ScalarKind, c: Core, n: int)
    requires Valid(c) && k !in {S8, U8, S16, U16, Bool, Char} && c.kind == ScalarFlat(k)
    ensures c.bits % Pow256(Width(k)) == c.bits && (OfKind(k, n, c.bits) <==> CoreReads(c, k, n))
  {
    Powers();
    hide Pow256;
  }

  lemma {:induction false} ScalarLifts(k: ScalarKind, c: Core, n: int)
    requires Valid(c)
    ensures LiftScalar(k, c) == Good(n) <==> CoreReads(c, k, n)
  {
    hide Pow256;
    if c.kind == ScalarFlat(k) && k != Bool && k != Char {
      hide FromBits, CoreReads, OfKind;
      BitsRead(k, c.bits % Pow256(Width(k)), n);
      if k in {S8, U8, S16, U16} {
        NarrowBits(k, c.bits, n);
      } else {
        WideBits(k, c, n);
      }
    }
  }

  // ---------------------------------------------------------------- joined carriers

  /** How many bits a kind has. */
  function BitsOf(kind: Flat): nat {
    match kind
    case I32 => 32 case Float32 => 32 case I64 => 64 case Float64 => 64
  }

  /** Different kinds are joined to the narrowest integer that has the bits of both. */
  lemma {:induction false} JoinNarrowest(a: Flat, b: Flat, c: Flat)
    requires c in {I32, I64}
    ensures Join(a, a) == a
    ensures a != b ==> Join(a, b) in {I32, I64}
    ensures a != b ==> (BitsOf(a) <= BitsOf(c) && BitsOf(b) <= BitsOf(c) <==> BitsOf(Join(a, b)) <= BitsOf(c))
  {
  }

  /** The carriers of kinds `flat` that are read off the front of wider ones: the
      low 32 bits, or all of them. */
  ghost function Narrowed(flat: seq<Flat>, cs: seq<Core>): (r: seq<Core>)
    requires |flat| <= |cs|
    ensures |r| == |flat|
  {
    seq(|flat|, i requires 0 <= i < |flat| =>
      Core(flat[i], if BitsOf(flat[i]) == 32 then cs[i].bits % 4294967296 else cs[i].bits))
  }

  /** `out` are the carriers `cs`, with the same bits and nothing above them, and
      zeros behind. */
  ghost predicate Padded(cs: seq<Core>, out: seq<Core>) {
    && |cs| <= |out|
    && (forall i :: 0 <= i < |cs| ==> out[i].bits == cs[i].bits)
    && (forall i :: |cs| <= i < |out| ==> out[i].bits == 0)
  }

  /** Coercion to joined kinds keeps the bits, leaves the rest of a wider carrier
      clear, and fills up with zeros. */
  lemma {:induction false} CoerceKeeps(have: seq<Flat>, want: seq<Flat>, cs: seq<Core>)
    requires |have| <= |want| && OfKinds(cs, have) && forall i :: 0 <= i < |have| ==> Holds(have[i], want[i])
    ensures CoerceAll(have, want, cs).Good?
    ensures Padded(cs, CoerceAll(have, want, cs).v) && OfKinds(CoerceAll(have, want, cs).v, want)
    decreases |want|
  {
    CoerceAllBack(have, want, cs);
    if want != [] {
      if cs == [] {
        CoerceKeeps([], want[1..], []);
      } else {
        CoerceBack(have[0], want[0], cs[0]);
        CoerceKeeps(have[1..], want[1..], cs[1..]);
        var rest := CoerceAll(have[1..], want[1..], cs[1..]).v;
        var first := CoerceLower(have[0], want[0], cs[0]).v;
        PaddedCons(cs, first, rest);
      }
    }
  }

  lemma {:induction false} PaddedCons(cs: seq<Core>, first: Core, rest: seq<Core>)
    requires cs != [] && first.bits == cs[0].bits && Padded(cs[1..], rest)
    ensures Padded(cs, [first] + rest)
  {
    var out := [first] + rest;
    forall i | 0 <= i < |cs|
      ensures out[i].bits == cs[i].bits
    {
      if i > 0 {
        assert out[i] == rest[i - 1] && cs[i] == cs[1..][i - 1];
      }
    }
    forall i | |cs| <= i < |out|
      ensures out[i].bits == 0
    {
      assert out[i] == rest[i - 1];
    }
  }

  /** Reading the padded carriers as their own kinds gives them back. */
  lemma {:induction false} NarrowedBack(flat: seq<Flat>, cs: seq<Core>, out: seq<Core>)
    requires OfKinds(cs, flat) && Padded(cs, out)
    ensures Narrowed(flat, out) == cs
  {
    forall i | 0 <= i < |cs|
      ensures Narrowed(flat, out)[i] == cs[i]
    {
      assert cs[i].kind == flat[i] && Valid(cs[i]);
    }
  }

  /** Lifting a joined carrier takes its low bits. */
  lemma {:induction false} UncoerceNarrows(have: seq<Flat>, want: seq<Flat>, cs: seq<Core>)
    requires |want| <= |have| && OfKinds(cs, have) && forall i :: 0 <= i < |want| ==> Holds(want[i], have[i])
    ensures UncoerceAll(have, want, cs) == Good(Narrowed(want, cs))
    decreases |want|
  {
    if want != [] {
      UncoerceNarrows(have[1..], want[1..], cs[1..]);
      assert cs[0].kind == have[0] && Valid(cs[0]) && Holds(want[0], have[0]);
      assert CoerceLift(have[0], want[0], cs[0]) == Good(Narrowed(want, cs)[0]);
      assert Narrowed(want, cs) == [Narrowed(want, cs)[0]] + Narrowed(want[1..], cs[1..]);
    }
  }

  // ---------------------------------------------------------------- what lowering leaves

  /** The carriers `cs` are the lowered form of `v`, as far as they do not point
      into memory. */
  ghost predicate Exact(t: Ty, ptr: Pointer, cs: seq<Core>, v: Val)
    decreases t, Arity(t) + 1
  {
    match t
    case Scalar(k) => |cs| == 1 && v.Num? && v.kind == k && CoreIs(cs[0], k, v.n)
    case Fields(_, fields) => v.Members? && |v.members| == |fields| && ExactFields(t, ptr, 0, cs, v.members)
    case Cases(_, cases) =>
      && v.Case? && v.index < |cases| && cs != [] && cs[0] == Core(I32, v.index)
      && v.payload.Some? == cases[v.index].Some?
      && var flat := if v.payload.Some? then Flatten(cases[v.index].value, ptr) else [];
      && |flat| <= |cs| - 1 && Padded(Narrowed(flat, cs[1..]), cs[1..])
      && (v.payload.Some? ==> Exact(cases[v.index].value, ptr, Narrowed(flat, cs[1..]), v.payload.value))
    case Enum(_) => |cs| == 1 && v.Label? && cs[0] == Core(I32, v.choice)
    case Flags(_) => |cs| == 1 && v.FlagSet? && cs[0] == Core(I32, v.bits)
    case Handle(_) => |cs| == 1 && v.HandleOf? && cs[0] == Core(I32, v.handle)
    case Str => |cs| == 2 && v.Text? && cs[1].bits == |v.text|
    case List(_) => |cs| == 2 && v.Items? && cs[1].bits == |v.items|
  }

  /** Field after field, each with as many carriers as it flattens to. */
  ghost predicate ExactFields(t: Ty, ptr: Pointer, i: nat, cs: seq<Core>, vs: seq<Val>)
    requires t.Fields? && |vs| == |t.fields| && i <= |vs|
    decreases t, |vs| - i
  {
    if i == |vs| then cs == []
    else
      var n := |Flatten(t.fields[i], ptr)|;
      && n <= |cs| && Exact(t.fields[i], ptr, cs[..n], vs[i]) && ExactFields(t, ptr, i + 1, cs[n..], vs)
  }

  lemma {:induction false} FieldsExact(h: Heap, t: Ty, ptr: Pointer, depth: nat, capacity: nat, i: nat, vs: seq<Val>)
    requires t.Fields? && |vs| == |t.fields| && i <= |vs| && |FlatFrom(t, ptr, i)| <= CAP && ShallowFields(t, depth, i)
    requires LowerFlatFields(h, t, ptr, depth, capacity, i, vs).Good?
    ensures ExactFields(t, ptr, i, LowerFlatFields(h, t, ptr, depth, capacity, i, vs).v.cores, vs)
    decreases t, |vs| - i
  {
    hide Flatten, FlattenOf, LowerFlat, Shallow, Exact, OfKinds, Carried;
    if i < |vs| {
      var part := LowerFlat(h, t.fields[i], ptr, depth + 1, capacity, vs[i]).v;
      LoweredKinds(h, t.fields[i], ptr, depth + 1, capacity, vs[i]);
      LowerExact(h, t.fields[i], ptr, depth + 1, capacity, vs[i]);
      FieldsExact(part.heap, t, ptr, depth, capacity - |part.cores|, i + 1, vs);
      var rest := LowerFlatFields(part.heap, t, ptr, depth, capacity - |part.cores|, i + 1, vs).v;
      assert (part.cores + rest.cores)[..|part.cores|] == part.cores
          && (part.cores + rest.cores)[|part.cores|..] == rest.cores;
    }
  }

  lemma {:induction false} LoweredKinds(h: Heap, t: Ty, ptr: Pointer, depth: nat, capacity: nat, v: Val)
    requires |Flatten(t, ptr)| <= CAP && Shallow(t, depth) && LowerFlat(h, t, ptr, depth, capacity, v).Good?
    ensures OfKinds(LowerFlat(h, t, ptr, depth, capacity, v).v.cores, Flatten(t, ptr))
    ensures |LowerFlat(h, t, ptr, depth, capacity, v).v.cores| == |Flatten(t, ptr)|
  {
    hide Flatten, LowerFlat, LiftFlat, Step, Agrees, Shallow;
    ValueCarried(h, [], t, ptr, depth, capacity, v);
  }

  lemma {:induction false} RecordExact(h: Heap, t: Ty, ptr: Pointer, depth: nat, capacity: nat, v: Val)
    requires t.Fields? && |Flatten(t, ptr)| <= CAP && Shallow(t, depth)
    requires LowerFlat(h, t, ptr, depth, capacity, v).Good?
    ensures Exact(t, ptr, LowerFlat(h, t, ptr, depth, capacity, v).v.cores, v)
    decreases t, Arity(t) + 1
  {
    hide LowerFlatFields, ExactFields;
    FlatSplit(t, ptr, 0);
    assert FlattenFields(t, ptr, 0) + FlatFrom(t, ptr, 0) == FlatFrom(t, ptr, 0);
    NestingBound(t, |t.fields|, depth + 1);
    FieldsExact(h, t, ptr, depth, capacity, 0, v.members);
  }

  lemma {:induction false} CaseExact(h: Heap, t: Ty, ptr: Pointer, depth: nat, capacity: nat, v: Val)
    requires t.Cases? && |Flatten(t, ptr)| <= CAP && Shallow(t, depth) && LowerFlat(h, t, ptr, depth, capacity, v).Good?
    ensures Exact(t, ptr, LowerFlat(h, t, ptr, depth, capacity, v).v.cores, v)
    decreases t, Arity(t) + 1
  {
    hide FlattenOf, Cut, CoerceAll, JoinCases, Padded, Narrowed, OfKinds;
    FlattenExact(t, ptr, depth);
    CutShort(Flatten(t, ptr));
    var full, joined := Flatten(t, ptr), JoinCases(t, ptr, |t.cases|);
    assert full[1..] == joined;
    var out := LowerFlat(h, t, ptr, depth, capacity, v).v;
    if v.payload.None? {
      NoKinds();
      CoerceKeeps([], joined, []);
      NarrowedBack([], [], CoerceAll([], joined, []).v);
      assert out.cores[1..] == CoerceAll([], joined, []).v;
    } else {
      var f := t.cases[v.index].value;
      JoinHolds(t, ptr, |t.cases|, v.index);
      CaseNestingBound(t, |t.cases|, depth + 1);
      FlattenExact(f, ptr, depth + 1);
      CutShort(Flatten(f, ptr));
      LoweredKinds(h, f, ptr, depth + 1, CAP, v.payload.value);
      LowerExact(h, f, ptr, depth + 1, CAP, v.payload.value);
      var payload := LowerFlat(h, f, ptr, depth + 1, CAP, v.payload.value).v;
      CoerceKeeps(Flatten(f, ptr), joined, payload.cores);
      NarrowedBack(Flatten(f, ptr), payload.cores, CoerceAll(Flatten(f, ptr), joined, payload.cores).v);
      assert out.cores[1..] == CoerceAll(Flatten(f, ptr), joined, payload.cores).v;
    }
  }

  lemma {:induction false} NoKinds()
    ensures OfKinds([], [])
  {
  }

  /** Flat lowering sign-extends the signed numbers, keeps the bits of all others,
      also in joined carriers, whose remaining bits and positions are zero. */
  lemma {:induction false} LowerExact(h: Heap, t: Ty, ptr: Pointer, depth: nat, capacity: nat, v: Val)
    requires |Flatten(t, ptr)| <= CAP && Shallow(t, depth) && LowerFlat(h, t, ptr, depth, capacity, v).Good?
    ensures Exact(t, ptr, LowerFlat(h, t, ptr, depth, capacity, v).v.cores, v)
    decreases t, Arity(t) + 2
  {
    match t
    case Scalar(k) =>
      hide CoreIs, ScalarCore;
      ScalarKept(k, v.n);
    case Fields(_, _) =>
      hide LowerFlat, Exact, Flatten, Shallow;
      RecordExact(h, t, ptr, depth, capacity, v);
    case Cases(_, _) =>
      hide LowerFlat, Exact, Flatten, Shallow;
      CaseExact(h, t, ptr, depth, capacity, v);
    case _ =>
      hide Flatten, Shallow, LowerList, Allocate;
  }

  // ---------------------------------------------------------------- what lifting reads

  predicate PointerCore(c: Core, ptr: Pointer) {
    c.kind == if ptr == 8 then I64 else I32
  }

  /** The carriers `cs`, and the memory they point to, stand for the value `v`. */
  ghost predicate FlatAt(m: seq<Byte>, t: Ty, ptr: Pointer, cs: seq<Core>, depth: nat, v: Val)
    decreases t, Arity(t) + 1
  {
    depth < 64 &&
    match t
    case Scalar(k) => |cs| == 1 && v.Num? && v.kind == k && CoreReads(cs[0], k, v.n)
    case Str =>
      && |cs| == 2 && PointerCore(cs[0], ptr) && PointerCore(cs[1], ptr)
      && v.Text? && cs[1].bits == |v.text| && TextAt(m, cs[0].bits, v.text)
    case List(e) =>
      && |cs| == 2 && PointerCore(cs[0], ptr) && PointerCore(cs[1], ptr)
      && v.Items? && cs[1].bits == |v.items| && ArrayAt(m, e, ptr, cs[0].bits, |v.items|)
      && ItemsAt(m, e, ptr, cs[0].bits, depth, v.items)
    case Fields(record, fields) =>
      && v.Members? && v.record == record && |v.members| == |fields| != 0
      && FlatFieldsAt(m, t, ptr, 0, cs, depth, v.members)
    case Cases(family, cases) =>
      && v.Case? && v.family == family && v.index < |cases| && KindsMatch(cs, Flatten(t, ptr))
      && cs != [] && cs[0].bits == v.index && v.payload.Some? == cases[v.index].Some?
      && (v.payload.Some? ==>
           var flat := Flatten(cases[v.index].value, ptr);
           |flat| <= |cs| - 1 &&
           FlatAt(m, cases[v.index].value, ptr, Narrowed(flat, cs[1..]), depth + 1, v.payload.value))
    case Enum(count) => |cs| == 1 && cs[0].kind == I32 && v.Label? && cs[0].bits == v.choice < count
    case Flags(count) =>
      |cs| == 1 && cs[0].kind == I32 && v.FlagSet? && 0 < count <= 32 && cs[0].bits == v.bits < Pow2(count)
    case Handle(_) => |cs| == 1 && cs[0].kind == I32 && v.HandleOf? && cs[0].bits == v.handle
  }

  ghost predicate FlatFieldsAt(m: seq<Byte>, t: Ty, ptr: Pointer, i: nat, cs: seq<Core>, depth: nat, vs: seq<Val>)
    requires t.Fields? && |vs| == |t.fields| && i <= |vs|
    decreases t, |vs| - i
  {
    if i == |vs| then cs == []
    else
      var n := |Flatten(t.fields[i], ptr)|;
      && n <= |cs| && FlatAt(m, t.fields[i], ptr, cs[..n], depth + 1, vs[i])
      && FlatFieldsAt(m, t, ptr, i + 1, cs[n..], depth, vs)
  }

  predicate AllValid(cs: seq<Core>) {
    forall i :: 0 <= i < |cs| ==> Valid(cs[i])
  }

  lemma {:induction false} FlatFieldsLength(m: seq<Byte>, t: Ty, ptr: Pointer, cs: seq<Core>, depth: nat, i: nat)
    requires t.Fields? && i <= |t.fields|
    ensures var r := LiftFlatFields(m, t, ptr, cs, depth, i); r.Good? ==> |r.v| == |t.fields| - i
    decreases |t.fields| - i
  {
    hide FlattenOf, LiftFlat;
    if i < |t.fields| {
      var flat := FlattenOf(t.fields[i], ptr, depth + 1);
      if flat.Good? && |flat.v| <= |cs| {
        FlatFieldsLength(m, t, ptr, cs[|flat.v|..], depth, i + 1);
      }
    }
  }

  lemma {:induction false} FlatFieldsRead(m: seq<Byte>, t: Ty, ptr: Pointer, cs: seq<Core>, depth: nat, i: nat,
      vs: seq<Val>)
    requires t.Fields? && |vs| == |t.fields| && i <= |vs| && |m| <= MAX64 && AllValid(cs)
    requires |FlatFrom(t, ptr, i)| <= CAP && ShallowFields(t, depth, i)
    ensures LiftFlatFields(m, t, ptr, cs, depth, i) == Good(vs[i..]) <==> FlatFieldsAt(m, t, ptr, i, cs, depth, vs)
    decreases t, |vs| - i
  {
    hide Flatten, FlattenOf, LiftFlat, Shallow, FlatAt, Cut;
    if i == |vs| {
      assert vs[i..] == [];
    } else {
      FlattenExact(t.fields[i], ptr, depth + 1);
      CutShort(Flatten(t.fields[i], ptr));
      var n := |Flatten(t.fields[i], ptr)|;
      if n <= |cs| {
        FlatReads(m, t.fields[i], ptr, cs[..n], depth + 1, vs[i]);
        FlatFieldsRead(m, t, ptr, cs[n..], depth, i + 1, vs);
      }
      assert vs[i..] == [vs[i]] + vs[i + 1..];
      assert vs[i..][0] == vs[i] && vs[i..][1..] == vs[i + 1..];
    }
  }

  lemma {:induction false} RecordReads(m: seq<Byte>, t: Ty, ptr: Pointer, cs: seq<Core>, depth: nat, v: Val)
    requires t.Fields? && |Flatten(t, ptr)| <= CAP && Shallow(t, depth) && |m| <= MAX64 && AllValid(cs)
    ensures LiftFlat(m, t, ptr, cs, depth) == Good(v) <==> FlatAt(m, t, ptr, cs, depth, v)
    decreases t, Arity(t) + 1
  {
    hide LiftFlatFields, FlatFieldsAt;
    FlatSplit(t, ptr, 0);
    assert FlattenFields(t, ptr, 0) + FlatFrom(t, ptr, 0) == FlatFrom(t, ptr, 0);
    NestingBound(t, |t.fields|, depth + 1);
    FlatFieldsLength(m, t, ptr, cs, depth, 0);
    if v.Members? && |v.members| == |t.fields| {
      FlatFieldsRead(m, t, ptr, cs, depth, 0, v.members);
      assert v.members[0..] == v.members;
    }
  }

  lemma {:induction false} CaseReads(m: seq<Byte>, t: Ty, ptr: Pointer, cs: seq<Core>, depth: nat, v: Val)
    requires t.Cases? && |Flatten(t, ptr)| <= CAP && Shallow(t, depth) && |m| <= MAX64 && AllValid(cs)
    ensures LiftFlat(m, t, ptr, cs, depth) == Good(v) <==> FlatAt(m, t, ptr, cs, depth, v)
    decreases t, Arity(t) + 1
  {
    hide FlattenOf, Cut, UncoerceAll, JoinCases, Narrowed, Shallow;
    FlattenExact(t, ptr, depth);
    CutShort(Flatten(t, ptr));
    var full, joined := Flatten(t, ptr), JoinCases(t, ptr, |t.cases|);
    assert full[1..] == joined;
    if v.Case? && v.index < |t.cases| && KindsMatch(cs, full) && cs[0].bits == v.index && t.cases[v.index].Some? {
      var f := t.cases[v.index].value;
      JoinHolds(t, ptr, |t.cases|, v.index);
      CanonicalTotal.CaseShallow(t, depth, v.index);
      FlattenExact(f, ptr, depth + 1);
      CutShort(Flatten(f, ptr));
      UncoerceNarrows(joined, Flatten(f, ptr), cs[1..]);
      NarrowedValid(Flatten(f, ptr), cs[1..]);
      if v.payload.Some? {
        FlatReads(m, f, ptr, Narrowed(Flatten(f, ptr), cs[1..]), depth + 1, v.payload.value);
      }
    }
  }

  lemma {:induction false} NarrowedValid(flat: seq<Flat>, cs: seq<Core>)
    requires |flat| <= |cs| && AllValid(cs)
    ensures AllValid(Narrowed(flat, cs))
  {
    forall i | 0 <= i < |flat|
      ensures Valid(Narrowed(flat, cs)[i])
    {
      assert Valid(cs[i]);
    }
  }

  /** Flat lifting yields `v` exactly if the carriers, and the memory behind them,
      stand for it. */
  lemma {:induction false} FlatReads(m: seq<Byte>, t: Ty, ptr: Pointer, cs: seq<Core>, depth: nat, v: Val)
    requires |Flatten(t, ptr)| <= CAP && Shallow(t, depth) && |m| <= MAX64 && AllValid(cs)
    ensures LiftFlat(m, t, ptr, cs, depth) == Good(v) <==> FlatAt(m, t, ptr, cs, depth, v)
    decreases t, Arity(t) + 2
  {
    match t
    case Scalar(k) =>
      hide CoreReads, LiftScalar, Flatten, Shallow, Valid;
      if |cs| == 1 && v.Num? {
        ScalarLifts(k, cs[0], v.n);
      }
    case List(_) =>
      hide LiftList, ItemsAt, ArrayAt, Flatten, Shallow, Valid;
      if |cs| == 2 {
        ListRead(m, t, ptr, cs[0].bits, cs[1].bits, depth, v);
      }
    case Fields(_, _) =>
      hide LiftFlat, FlatAt, Flatten, Shallow, AllValid;
      RecordReads(m, t, ptr, cs, depth, v);
    case Cases(_, _) =>
      hide LiftFlat, FlatAt, Flatten, Shallow, AllValid;
      CaseReads(m, t, ptr, cs, depth, v);
    case _ =>
      hide Flatten, Shallow, Pow2;
  }
}
