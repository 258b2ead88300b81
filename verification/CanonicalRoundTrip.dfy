/**
  Whatever can be lowered into memory is lifted back unchanged, and lowering
  touches nothing but the value's own place and freshly allocated memory.
 */
module CanonicalRoundTrip {
  import opened Common
  import opened Bytes
  import opened CanonicalLayout
  import opened CanonicalMemory

  // ---------------------------------------------------------------- what a step touches

  /** From `h` to `k` only bytes of the place at `a` and newly used bytes changed. */
  ghost predicate Step(h: Heap, k: Heap, a: nat, n: nat) {
    && h.used <= k.used && |h.bytes| <= |k.bytes| && (|h.bytes| <= MAX64 ==> |k.bytes| <= MAX64)
    && (forall x :: 0 <= x < |h.bytes| && !(a <= x < a + n) && (x in h.used || x !in k.used) ==>
         k.bytes[x] == h.bytes[x])
  }

  /** `m` still holds everything that was written between `h` and `k`. */
  ghost predicate Agrees(h: Heap, k: Heap, m: seq<Byte>, a: nat, n: nat) {
    && |k.bytes| <= |m|
    && (forall x :: 0 <= x < |k.bytes| && ((a <= x < a + n) || (x in k.used && x !in h.used)) ==> m[x] == k.bytes[x])
  }

  /** The place is inside the memory and spoken for. */
  ghost predicate Owned(h: Heap, a: nat, n: nat) {
    a + n <= |h.bytes| && forall x :: a <= x < a + n ==> x in h.used
  }

  lemma {:induction false} StepSame(h: Heap, a: nat, n: nat)
    ensures Step(h, h, a, n)
  {
  }

  lemma {:induction false} StepWider(h: Heap, k: Heap, a: nat, n: nat, b: nat, l: nat)
    requires Step(h, k, a, n) && b <= a && a + n <= b + l
    ensures Step(h, k, b, l)
  {
  }

  /** Two steps in separate parts of one place. */
  lemma {:induction false} Chain(h0: Heap, h1: Heap, h2: Heap, m: seq<Byte>, a: nat, n: nat, a1: nat, n1: nat, a2: nat,
      n2: nat)
    requires Step(h0, h1, a1, n1) && Step(h1, h2, a2, n2) && Owned(h0, a, n)
    requires a <= a1 && a1 + n1 <= a2 && a2 + n2 <= a + n
    ensures Step(h0, h2, a, n)
    ensures Agrees(h0, h2, m, a, n) ==> Agrees(h0, h1, m, a1, n1) && Agrees(h1, h2, m, a2, n2)
  {
  }

  lemma {:induction false} OwnedLater(h: Heap, k: Heap, a: nat, n: nat, b: nat, l: nat)
    requires Owned(h, a, n) && h.used <= k.used && |h.bytes| <= |k.bytes| && a <= b && b + l <= a + n
    ensures Owned(k, b, l)
  {
  }

  /** Work in freshly allocated memory, then a step in the place itself. */
  lemma {:induction false} ChainFresh(h0: Heap, h1: Heap, h2: Heap, h3: Heap, m: seq<Byte>, a: nat, n: nat, p: nat,
      l: nat)
    requires Step(h0, h1, 0, 0) && Step(h1, h2, p, l) && Step(h2, h3, a, n) && Owned(h0, a, n)
    requires forall x :: p <= x < p + l ==> x in h1.used && x !in h0.used
    ensures Step(h0, h3, a, n)
    ensures Agrees(h0, h3, m, a, n) ==> Agrees(h1, h2, m, p, l) && Agrees(h2, h3, m, a, n)
  {
  }

  // ---------------------------------------------------------------- single stores

  lemma {:induction false} WriteStep(h: Heap, a: nat, data: seq<Byte>)
    requires Write(h, a, data).Good?
    ensures var k := Write(h, a, data).v;
              Step(h, k, a, |data|) && a + |data| <= |k.bytes| && k.bytes[a..a + |data|] == data
  {
  }

  lemma {:induction false} ReadBack(h: Heap, k: Heap, m: seq<Byte>, a: nat, n: nat, b: nat, l: nat)
    requires Agrees(h, k, m, a, n) && a <= b && b + l <= a + n && a + n <= |k.bytes|
    ensures b + l <= |m| && m[b..b + l] == k.bytes[b..b + l]
  {
    assert forall x :: b <= x < b + l ==> m[x] == k.bytes[x];
  }

  lemma {:induction false} NumberBack(h: Heap, m: seq<Byte>, a: nat, w: nat, n: nat)
    requires LowerNumber(h, a, w, n).Good? && n < Pow256(w)
    ensures var k := LowerNumber(h, a, w, n).v;
            && Step(h, k, a, w) && a + w <= |k.bytes| && k.used == h.used
            && (Agrees(h, k, m, a, w) ==> ReadNumber(m, a, w) == Good(n))
  {
    hide Le, FromLe, Pow256, Step, Agrees;
    WriteStep(h, a, Le(n, w));
    var k := LowerNumber(h, a, w, n).v;
    if Agrees(h, k, m, a, w) {
      ReadBack(h, k, m, a, w, a, w);
      LeRoundTrip(n, w);
    }
  }

  lemma {:induction false} PointerBound(ptr: Pointer, value: nat)
    requires value <= (if ptr == 4 then MAX32 else MAX64)
    ensures value < Pow256(ptr)
  {
    assert Pow256(4) == 256 * (256 * (256 * (256 * 1)));
    assert Pow256(8) == 256 * (256 * (256 * (256 * Pow256(4))));
  }

  lemma {:induction false} PairBack(h: Heap, m: seq<Byte>, ptr: Pointer, a: nat, pointer: nat, length: nat)
    requires LowerPair(h, ptr, a, pointer, length).Good? && Owned(h, a, 2 * ptr)
    ensures var k := LowerPair(h, ptr, a, pointer, length).v;
            && Step(h, k, a, 2 * ptr)
            && (Agrees(h, k, m, a, 2 * ptr) ==> LiftPair(m, ptr, a) == Good((pointer, length)))
  {
    hide Le, FromLe, Pow256, Step, Agrees, Owned, ReadNumber;
    PointerBound(ptr, pointer);
    PointerBound(ptr, length);
    var h1 := LowerNumber(h, a, ptr, pointer).v;
    NumberBack(h, m, a, ptr, pointer);
    NumberBack(h1, m, a + ptr, ptr, length);
    Chain(h, h1, LowerPair(h, ptr, a, pointer, length).v, m, a, 2 * ptr, a, ptr, a + ptr, ptr);
  }

  /** Freshly allocated memory was not in use, and is now. */
  lemma {:induction false} AllocateStep(h: Heap, size: nat)
    requires Allocate(h, size).Good?
    ensures var a := Allocate(h, size).v;
            && Step(h, a.heap, 0, 0) && Owned(a.heap, a.pointer, size) && a.pointer + size <= MAX64
            && (forall x :: a.pointer <= x < a.pointer + size ==> x in a.heap.used && x !in h.used)
  {
  }

  lemma {:induction false} TextBack(h: Heap, m: seq<Byte>, ptr: Pointer, a: nat, v: Val)
    requires LowerText(h, v).Good?
    requires LowerPair(LowerText(h, v).v.heap, ptr, a, LowerText(h, v).v.pointer, |v.text|).Good?
    requires Owned(h, a, 2 * ptr)
    ensures var k := LowerPair(LowerText(h, v).v.heap, ptr, a, LowerText(h, v).v.pointer, |v.text|).v;
            && Step(h, k, a, 2 * ptr)
            && (Agrees(h, k, m, a, 2 * ptr) ==>
                  LiftPair(m, ptr, a).Good? && LiftText(m, LiftPair(m, ptr, a).v.0, LiftPair(m, ptr, a).v.1) == Good(v))
  {
    hide Step, Agrees, Owned, LowerPair, LiftPair, Allocate;
    var alloc := Allocate(h, |v.text|).v;
    AllocateStep(h, |v.text|);
    var h1, p := alloc.heap, alloc.pointer;
    WriteStep(h1, p, v.text);
    var h2 := LowerText(h, v).v.heap;
    StepLengths(h, h1, 0, 0);
    OwnedLater(h, h2, a, 2 * ptr, a, 2 * ptr);
    PairBack(h2, m, ptr, a, p, |v.text|);
    var k := LowerPair(h2, ptr, a, p, |v.text|).v;
    ChainFresh(h, h1, h2, k, m, a, 2 * ptr, p, |v.text|);
    if Agrees(h, k, m, a, 2 * ptr) {
      ReadBack(h1, h2, m, p, |v.text|, p, |v.text|);
    }
  }

  lemma {:induction false} StepLengths(h: Heap, k: Heap, a: nat, n: nat)
    requires Step(h, k, a, n)
    ensures h.used <= k.used && |h.bytes| <= |k.bytes|
  {
  }

  // ---------------------------------------------------------------- every type

  /** A place fit for a value of type `t`. */
  ghost predicate Place(h: Heap, t: Ty, ptr: Pointer, a: nat) {
    Sized(t, ptr, 0) && a % Alignment(t, ptr) == 0 && Owned(h, a, Size(t, ptr)) && a + Size(t, ptr) <= MAX64
  }

  /** Between `h` and `k` the value `v` was stored at `a`: `m`, which still holds
      it, lifts to it. */
  ghost predicate Stored(h: Heap, k: Heap, m: seq<Byte>, t: Ty, ptr: Pointer, a: nat, depth: nat, v: Val) {
    && Step(h, k, a, Size(t, ptr))
    && (Agrees(h, k, m, a, Size(t, ptr)) ==> LiftAt(m, t, ptr, a, depth) == Good(v))
  }

  lemma {:induction false} ScalarStored(h: Heap, m: seq<Byte>, t: Ty, ptr: Pointer, a: nat, depth: nat, v: Val)
    requires t.Scalar? && LowerAt(h, t, ptr, a, depth, v).Good?
    ensures Stored(h, LowerAt(h, t, ptr, a, depth, v).v, m, t, ptr, a, depth, v)
  {
    hide Le, FromLe, Pow256, Step, Agrees, ReadNumber, LowerNumber, FromBits, ToBits, Fits;
    var k := t.scalar;
    BitsRoundTrip(k, v.n);
    NumberBack(h, m, a, Width(k), ToBits(k, v.n));
  }

  lemma {:induction false} Pow2Bound(count: nat, w: nat)
    requires count <= 8 * w
    ensures Pow2(count) <= Pow256(w)
    decreases count
  {
    if w > 0 {
      if count <= 8 {
        Pow2Small(count);
        assert Pow256(w) >= 256;
      } else {
        Pow2Bound(count - 8, w - 1);
        var n := count - 8;
        assert Pow2(n + 2) == 4 * Pow2(n) && Pow2(n + 4) == 4 * Pow2(n + 2) && Pow2(n + 6) == 4 * Pow2(n + 4)
            && Pow2(n + 8) == 4 * Pow2(n + 6);
      }
    }
  }

  lemma {:induction false} Pow2Small(count: nat)
    requires count <= 8
    ensures Pow2(count) <= 256
  {
    if count > 0 {
      assert Pow2(0) == 1 && Pow2(1) == 2 && Pow2(2) == 4 && Pow2(3) == 8 && Pow2(4) == 16;
      assert Pow2(5) == 32 && Pow2(6) == 64 && Pow2(7) == 128 && Pow2(8) == 256;
    }
  }

  lemma {:induction false} LabelBound(count: nat, index: nat)
    requires index < count && index <= MAX32
    ensures index < Pow256(LabelWidth(count))
  {
    assert Pow256(1) == 256 && Pow256(2) == 65536 && Pow256(4) == MAX32 + 1;
  }

  lemma {:induction false} LabelStored(h: Heap, m: seq<Byte>, t: Ty, ptr: Pointer, a: nat, depth: nat, v: Val)
    requires t.Enum? && LowerAt(h, t, ptr, a, depth, v).Good?
    ensures Stored(h, LowerAt(h, t, ptr, a, depth, v).v, m, t, ptr, a, depth, v)
  {
    hide Le, FromLe, Pow256, Step, Agrees, ReadNumber, LowerNumber;
    LabelBound(t.labels, v.choice);
    NumberBack(h, m, a, LabelWidth(t.labels), v.choice);
  }

  lemma {:induction false} FlagsStored(h: Heap, m: seq<Byte>, t: Ty, ptr: Pointer, a: nat, depth: nat, v: Val)
    requires t.Flags? && LowerAt(h, t, ptr, a, depth, v).Good?
    ensures Stored(h, LowerAt(h, t, ptr, a, depth, v).v, m, t, ptr, a, depth, v)
  {
    hide Le, FromLe, Pow256, Step, Agrees, ReadNumber, LowerNumber, Pow2;
    Pow2Bound(t.flags, FlagsWidth(t.flags));
    NumberBack(h, m, a, FlagsWidth(t.flags), v.bits);
  }

  lemma {:induction false} HandleStored(h: Heap, m: seq<Byte>, t: Ty, ptr: Pointer, a: nat, depth: nat, v: Val)
    requires t.Handle? && LowerAt(h, t, ptr, a, depth, v).Good?
    ensures Stored(h, LowerAt(h, t, ptr, a, depth, v).v, m, t, ptr, a, depth, v)
  {
    assert v.handle < Pow256(4) by {
      PointerBound(4, v.handle);
    }
    hide Le, FromLe, Pow256, Step, Agrees, ReadNumber, LowerNumber;
    NumberBack(h, m, a, 4, v.handle);
  }

  lemma {:induction false} TextStored(h: Heap, m: seq<Byte>, t: Ty, ptr: Pointer, a: nat, depth: nat, v: Val)
    requires t.Str? && Owned(h, a, 2 * ptr) && LowerAt(h, t, ptr, a, depth, v).Good?
    ensures Stored(h, LowerAt(h, t, ptr, a, depth, v).v, m, t, ptr, a, depth, v)
  {
    hide Step, Agrees, Owned, LowerText, LowerPair, LiftText, LiftPair;
    TextIsText(h, v);
    TextBack(h, m, ptr, a, v);
  }

  lemma {:induction false} TextIsText(h: Heap, v: Val)
    requires LowerText(h, v).Good?
    ensures v.Text?
  {
  }

  // ---------------------------------------------------------------- records and tuples

  /** A field of a placed record is placed. */
  lemma {:induction false} FieldPlaced(h: Heap, k: Heap, t: Ty, ptr: Pointer, a: nat, i: nat)
    requires t.Fields? && i < |t.fields| && Place(h, t, ptr, a) && h.used <= k.used && |h.bytes| <= |k.bytes|
    ensures Place(k, t.fields[i], ptr, a + FieldOffset(t, ptr, i))
    ensures LayoutOf(t.fields[i], ptr, 0) == Good(Layout(Alignment(t.fields[i], ptr), Size(t.fields[i], ptr)))
    ensures AlignUp(a + FieldEnd(t, ptr, i), Alignment(t.fields[i], ptr)) == a + FieldOffset(t, ptr, i)
    ensures a + FieldOffset(t, ptr, i) + Size(t.fields[i], ptr) == a + FieldEnd(t, ptr, i + 1) <= a + Size(t, ptr)
  {
    hide AlignUp, Alignment, Size, FieldOffset, FieldEnd, LayoutOf, Owned, Formed, Nesting, Walk;
    FieldPlacement(t, ptr, i);
    WalkLands(t, ptr, a, i);
    var f := t.fields[i];
    FieldSized(t, ptr, i);
    LayoutExact(f, ptr, 0);
    Divides(a, Alignment(f, ptr), Alignment(t, ptr));
    AddModulo(a, FieldOffset(t, ptr, i), Alignment(f, ptr));
    OwnedLater(h, k, a, Size(t, ptr), a + FieldOffset(t, ptr, i), Size(f, ptr));
  }

  lemma {:induction false} FieldSized(t: Ty, ptr: Pointer, i: nat)
    requires t.Fields? && i < |t.fields| && Sized(t, ptr, 0)
    ensures Sized(t.fields[i], ptr, 0)
  {
    hide Alignment, Size, FieldOffset, FieldEnd;
    FieldPlacement(t, ptr, i);
    FormedField(t, |t.fields|, i);
    NestingBound(t, |t.fields|, 1);
  }

  lemma {:induction false} FieldsStored(h: Heap, m: seq<Byte>, t: Ty, ptr: Pointer, a: nat, depth: nat, i: nat,
      vs: seq<Val>, h0: Heap)
    requires t.Fields? && |vs| == |t.fields| && i <= |vs| && Place(h0, t, ptr, a) && h0.used <= h.used
    requires |h0.bytes| <= |h.bytes|
    requires LowerFields(h, t, ptr, a + FieldEnd(t, ptr, i), depth, i, vs).Good?
    ensures var k := LowerFields(h, t, ptr, a + FieldEnd(t, ptr, i), depth, i, vs).v; var n := Size(t, ptr);
            FieldEnd(t, ptr, i) <= n &&
            var l := n - FieldEnd(t, ptr, i);
            && Step(h, k, a + FieldEnd(t, ptr, i), l)
            && (Agrees(h, k, m, a + FieldEnd(t, ptr, i), l) ==>
                 LiftFields(m, t, ptr, a + FieldEnd(t, ptr, i), depth, i) == Good(vs[i..]))
    decreases t, |vs| - i
  {
    hide AlignUp, Alignment, Size, FieldOffset, FieldEnd, LayoutOf, Owned, Step, Agrees, LowerAt, LiftAt, Place, Walk;
    FieldEndInside(t, ptr, i);
    if i == |vs| {
      StepSame(h, a + FieldEnd(t, ptr, i), Size(t, ptr) - FieldEnd(t, ptr, i));
      assert vs[i..] == [];
    } else {
      FieldPlaced(h0, h, t, ptr, a, i);
      var f, o, n := t.fields[i], FieldOffset(t, ptr, i), Size(t, ptr);
      var h1 := LowerAt(h, f, ptr, a + o, depth + 1, vs[i]).v;
      ValueStored(h, m, f, ptr, a + o, depth + 1, vs[i]);
      StepLengths(h, h1, a + o, Size(f, ptr));
      FieldsStored(h1, m, t, ptr, a, depth, i + 1, vs, h0);
      var k := LowerFields(h1, t, ptr, a + FieldEnd(t, ptr, i + 1), depth, i + 1, vs).v;
      FieldPlacement(t, ptr, i);
      PlaceOwned(h0, t, ptr, a);
      OwnedLater(h0, h, a, n, a + FieldEnd(t, ptr, i), n - FieldEnd(t, ptr, i));
      Chain(h, h1, k, m, a + FieldEnd(t, ptr, i), n - FieldEnd(t, ptr, i), a + o, Size(f, ptr),
        a + FieldEnd(t, ptr, i + 1), n - FieldEnd(t, ptr, i + 1));
      assert vs[i..] == [vs[i]] + vs[i + 1..];
    }
  }

  lemma {:induction false} PlaceOwned(h: Heap, t: Ty, ptr: Pointer, a: nat)
    requires Place(h, t, ptr, a)
    ensures Owned(h, a, Size(t, ptr))
  {
  }

  lemma {:induction false} FieldEndInside(t: Ty, ptr: Pointer, i: nat)
    requires t.Fields? && i <= |t.fields|
    ensures FieldEnd(t, ptr, i) <= Size(t, ptr)
  {
    FieldEndGrows(t, ptr, i, |t.fields|);
    AlignUpFacts(FieldEnd(t, ptr, |t.fields|), Alignment(t, ptr));
  }

  lemma {:induction false} RecordStored(h: Heap, m: seq<Byte>, t: Ty, ptr: Pointer, a: nat, depth: nat, v: Val)
    requires t.Fields? && Place(h, t, ptr, a) && LowerAt(h, t, ptr, a, depth, v).Good?
    ensures Stored(h, LowerAt(h, t, ptr, a, depth, v).v, m, t, ptr, a, depth, v)
    decreases t, Arity(t) + 1
  {
    hide AlignUp, Alignment, Size, LayoutOf, Step, Agrees, LowerFields, LiftFields, Place;
    assert FieldEnd(t, ptr, 0) == 0;
    FieldsStored(h, m, t, ptr, a, depth, 0, v.members, h);
    assert v.members[0..] == v.members;
  }

  // ---------------------------------------------------------------- lists

  lemma {:induction false} ItemsStored(h: Heap, m: seq<Byte>, t: Ty, ptr: Pointer, base: nat, depth: nat, vs: seq<Val>)
    requires t.List? && Sized(t.element, ptr, 0) && base % Alignment(t.element, ptr) == 0
    requires Owned(h, base, |vs| * Size(t.element, ptr)) && base + |vs| * Size(t.element, ptr) <= MAX64
    requires LowerItems(h, t, ptr, base, Size(t.element, ptr), depth, vs).Good?
    ensures var s := Size(t.element, ptr); var k := LowerItems(h, t, ptr, base, s, depth, vs).v;
            && Step(h, k, base, |vs| * s)
            && (Agrees(h, k, m, base, |vs| * s) ==> LiftItems(m, t, ptr, base, s, depth, |vs|) == Good(vs))
    decreases t, 0, |vs|
  {
    hide AlignUp, Alignment, Size, LayoutOf, Owned, Step, Agrees, LowerAt, LiftAt, Formed, Nesting;
    var e := t.element;
    var s := Size(e, ptr);
    if vs == [] {
      StepSame(h, base, 0);
    } else {
      assert |vs| * s == s + (|vs| - 1) * s;
      assert (|vs| - 1) * s >= 0;
      OwnedLater(h, h, base, |vs| * s, base, s);
      var h1 := LowerAt(h, e, ptr, base, depth + 1, vs[0]).v;
      ValueStored(h, m, e, ptr, base, depth + 1, vs[0]);
      StepLengths(h, h1, base, s);
      SizeFacts(e, ptr);
      AddModulo(base, s, Alignment(e, ptr));
      OwnedLater(h, h1, base, |vs| * s, base + s, (|vs| - 1) * s);
      ItemsStored(h1, m, t, ptr, base + s, depth, vs[1..]);
      var k := LowerItems(h1, t, ptr, base + s, s, depth, vs[1..]).v;
      Chain(h, h1, k, m, base, |vs| * s, base, s, base + s, (|vs| - 1) * s);
      assert vs == [vs[0]] + vs[1..];
    }
  }

  lemma {:induction false} ListStored(h: Heap, m: seq<Byte>, t: Ty, ptr: Pointer, a: nat, depth: nat, v: Val)
    requires t.List? && Owned(h, a, 2 * ptr) && LowerAt(h, t, ptr, a, depth, v).Good?
    ensures Stored(h, LowerAt(h, t, ptr, a, depth, v).v, m, t, ptr, a, depth, v)
    decreases t, 1
  {
    hide AlignUp, Alignment, Size, LayoutOf, Owned, Step, Agrees, LowerPair, LiftPair, LowerItems, LiftItems, Formed;
    hide Nesting, Allocate;
    var e := t.element;
    LayoutExact(e, ptr, 0);
    SizeFacts(e, ptr);
    var s := Size(e, ptr);
    var size := |v.items| * s;
    var alloc := Allocate(h, size).v;
    AllocateStep(h, size);
    var h1, p := alloc.heap, alloc.pointer;
    var h2 := LowerItems(h1, t, ptr, p, s, depth, v.items).v;
    ItemsStored(h1, m, t, ptr, p, depth, v.items);
    StepLengths(h, h1, 0, 0);
    StepLengths(h1, h2, p, size);
    OwnedLater(h, h2, a, 2 * ptr, a, 2 * ptr);
    PairBack(h2, m, ptr, a, p, |v.items|);
    var k := LowerPair(h2, ptr, a, p, |v.items|).v;
    ChainFresh(h, h1, h2, k, m, a, 2 * ptr, p, size);
    ListSize(t, ptr);
    StepLengths(h2, k, a, 2 * ptr);
    if Agrees(h, k, m, a, 2 * ptr) {
      Lengths(h, h1, k, m, a, 2 * ptr, p, size);
      assert LiftPair(m, ptr, a).Good? && LiftPair(m, ptr, a).v.0 == p && LiftPair(m, ptr, a).v.1 == |v.items|;
      assert LiftItems(m, t, ptr, p, s, depth, |v.items|) == Good(v.items);
      assert LiftList(m, t, ptr, p, |v.items|, depth) == Good(v);
    }
  }

  lemma {:induction false} Lengths(h: Heap, h1: Heap, k: Heap, m: seq<Byte>, a: nat, n: nat, p: nat, size: nat)
    requires Agrees(h, k, m, a, n) && Owned(h1, p, size) && |h1.bytes| <= |k.bytes|
    ensures p + size <= |m|
  {
  }

  lemma {:induction false} ListSize(t: Ty, ptr: Pointer)
    requires t.List?
    ensures Size(t, ptr) == 2 * ptr
  {
  }

  // ---------------------------------------------------------------- variants

  /** `variant_payload_alignment` is the alignment the layout used. */
  lemma {:induction false} PayloadAlignmentExact(t: Ty, ptr: Pointer, i: nat)
    requires t.Cases? && i <= |t.cases| && Sized(t, ptr, 0)
    ensures PayloadAlignment(t, ptr, i, CaseAlignment(t, ptr, i)) == Good(CaseAlignment(t, ptr, |t.cases|))
    decreases |t.cases| - i
  {
    hide Alignment, Size, LayoutOf, Sized;
    if i < |t.cases| {
      if t.cases[i].Some? {
        CaseSized(t, ptr, i);
        LayoutExact(t.cases[i].value, ptr, 0);
      }
      PayloadAlignmentExact(t, ptr, i + 1);
    }
  }

  lemma {:induction false} CaseSized(t: Ty, ptr: Pointer, i: nat)
    requires t.Cases? && i < |t.cases| && t.cases[i].Some? && Sized(t, ptr, 0)
    ensures Sized(t.cases[i].value, ptr, 0)
  {
    hide Alignment, Size;
    PayloadPlacement(t, ptr, i);
    FormedCase(t, |t.cases|, i);
    CaseNestingBound(t, |t.cases|, 1);
  }

  lemma {:induction false} PayloadPlaced(h: Heap, k: Heap, t: Ty, ptr: Pointer, a: nat, i: nat)
    requires t.Cases? && i < |t.cases| && Place(h, t, ptr, a) && h.used <= k.used && |h.bytes| <= |k.bytes|
    ensures PayloadPlace(t, ptr, a) == Good(a + PayloadOffset(t, ptr))
    ensures t.cases[i].Some? ==> Place(k, t.cases[i].value, ptr, a + PayloadOffset(t, ptr))
  {
    hide AlignUp, Alignment, Size, PayloadOffset, CaseAlignment, LayoutOf, Owned, Formed, Nesting, PayloadAlignment;
    PayloadPlacement(t, ptr, i);
    assert CaseAlignment(t, ptr, 0) == 1 by {
      CaseAlignmentStart(t, ptr);
    }
    PayloadAlignmentExact(t, ptr, 0);
    PayloadLands(t, ptr, a);
    if t.cases[i].Some? {
      var f := t.cases[i].value;
      CaseSized(t, ptr, i);
      Divides(a, Alignment(f, ptr), Alignment(t, ptr));
      AddModulo(a, PayloadOffset(t, ptr), Alignment(f, ptr));
      OwnedLater(h, k, a, Size(t, ptr), a + PayloadOffset(t, ptr), Size(f, ptr));
    }
  }

  lemma {:induction false} CaseAlignmentStart(t: Ty, ptr: Pointer)
    requires t.Cases?
    ensures CaseAlignment(t, ptr, 0) == 1
  {
  }

  lemma {:induction false} CaseStored(h: Heap, m: seq<Byte>, t: Ty, ptr: Pointer, a: nat, depth: nat, v: Val)
    requires t.Cases? && Place(h, t, ptr, a) && LowerAt(h, t, ptr, a, depth, v).Good?
    ensures Stored(h, LowerAt(h, t, ptr, a, depth, v).v, m, t, ptr, a, depth, v)
    decreases t, Arity(t) + 1
  {
    hide AlignUp, Alignment, Size, LayoutOf, Step, Agrees, Owned, LowerNumber, ReadNumber, Pow256, PayloadOffset;
    hide PayloadPlace, Formed, Nesting;
    var w, n := LabelWidth(|t.cases|), Size(t, ptr);
    LabelBound(|t.cases|, v.index);
    NumberBack(h, m, a, w, v.index);
    var h1 := LowerNumber(h, a, w, v.index).v;
    StepLengths(h, h1, a, w);
    PayloadPlacement(t, ptr, v.index);
    PayloadPlaced(h, h1, t, ptr, a, v.index);
    if v.payload.None? {
      StepWider(h, h1, a, w, a, n);
      AgreesNarrower(h, h1, m, a, n, a, w);
    } else {
      var f, o := t.cases[v.index].value, PayloadOffset(t, ptr);
      ValueStored(h1, m, f, ptr, a + o, depth + 1, v.payload.value);
      var k := LowerAt(h1, f, ptr, a + o, depth + 1, v.payload.value).v;
      StepWider(h1, k, a + o, Size(f, ptr), a + o, n - o);
      Chain(h, h1, k, m, a, n, a, w, a + o, Size(f, ptr));
    }
  }

  lemma {:induction false} AgreesNarrower(h: Heap, k: Heap, m: seq<Byte>, a: nat, n: nat, b: nat, l: nat)
    requires a <= b && b + l <= a + n
    ensures Agrees(h, k, m, a, n) ==> Agrees(h, k, m, b, l)
  {
  }

  // ---------------------------------------------------------------- the theorem

  /** Lowering a value at a fit place changes only that place and fresh memory,
      and every memory that keeps what was written lifts to the same value. */
  lemma {:induction false} ValueStored(h: Heap, m: seq<Byte>, t: Ty, ptr: Pointer, a: nat, depth: nat, v: Val)
    requires Place(h, t, ptr, a) && LowerAt(h, t, ptr, a, depth, v).Good?
    ensures Stored(h, LowerAt(h, t, ptr, a, depth, v).v, m, t, ptr, a, depth, v)
    decreases t, Arity(t) + 2
  {
    hide LowerAt, LiftAt, Stored, Owned;
    match t
    case Scalar(_) => ScalarStored(h, m, t, ptr, a, depth, v);
    case Str => TextStored(h, m, t, ptr, a, depth, v);
    case List(_) => ListStored(h, m, t, ptr, a, depth, v);
    case Fields(_, _) => RecordStored(h, m, t, ptr, a, depth, v);
    case Cases(_, _) => CaseStored(h, m, t, ptr, a, depth, v);
    case Enum(_) => LabelStored(h, m, t, ptr, a, depth, v);
    case Flags(_) => FlagsStored(h, m, t, ptr, a, depth, v);
    case Handle(_) => HandleStored(h, m, t, ptr, a, depth, v);
  }
}
