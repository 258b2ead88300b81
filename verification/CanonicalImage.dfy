/**
  What values look like in linear memory, byte by byte and independently of the
  code that reads and writes them, and the proof that lifting reads exactly this
  and lowering writes it (src/component_canonical.c; "Loading" and "Storing" of
  the Component Model Canonical ABI).
 */
module CanonicalImage {
  import opened Common
  import opened Bytes
  import opened CanonicalLayout
  import opened CanonicalLeast
  import opened CanonicalMemory
  import opened CanonicalRoundTrip
  import opened CanonicalValues

  // ---------------------------------------------------------------- the image of a value

  /** The bits of `n` in two's complement of `w` bytes are at `a`. */
  ghost predicate SignedAt(m: seq<Byte>, a: nat, w: nat, n: int) {
    NumberAt(m, a, w, if n < 0 then n + Pow256(w) else n)
  }

  ghost predicate ScalarAt(m: seq<Byte>, a: nat, k: ScalarKind, n: int) {
    match k
    case Bool => n <= 1 && NumberAt(m, a, 1, n)
    case U8 => NumberAt(m, a, 1, n)
    case U16 => NumberAt(m, a, 2, n)
    case U32 => NumberAt(m, a, 4, n)
    case U64 => NumberAt(m, a, 8, n)
    case F32 => NumberAt(m, a, 4, n)
    case F64 => NumberAt(m, a, 8, n)
    case S8 => -128 <= n < 128 && SignedAt(m, a, 1, n)
    case S16 => -32768 <= n < 32768 && SignedAt(m, a, 2, n)
    case S32 => -2147483648 <= n < 2147483648 && SignedAt(m, a, 4, n)
    case S64 => -9223372036854775808 <= n < 9223372036854775808 && SignedAt(m, a, 8, n)
    case Char => n <= 1114111 && !(55296 <= n <= 57343) && NumberAt(m, a, 4, n)
  }

  /** The pointer at `a` and the length behind it. */
  ghost predicate PairAt(m: seq<Byte>, ptr: Pointer, a: nat, pointer: nat, length: nat) {
    NumberAt(m, a, ptr, pointer) && NumberAt(m, a + ptr, ptr, length)
  }

  ghost predicate TextAt(m: seq<Byte>, pointer: nat, text: seq<Byte>) {
    |text| < 0x1000_0000 && pointer + |text| <= |m| && m[pointer..pointer + |text|] == text
  }

  /** Room for `count` elements of type `t`, aligned, at `pointer`. */
  ghost predicate ArrayAt(m: seq<Byte>, t: Ty, ptr: Pointer, pointer: nat, count: nat) {
    && Sized(t, ptr, 0) && pointer % Alignment(t, ptr) == 0
    && count * Size(t, ptr) < 0x1000_0000 && pointer + count * Size(t, ptr) <= |m|
  }

  /** Where element `i` of an array at `base` is. */
  function ItemPlace(base: nat, i: nat, size: nat): (a: nat) {
    base + i * size
  }

  /** The memory at `a` holds the value `v` of type `t`, at most 64 levels deep. */
  ghost predicate ValueAt(m: seq<Byte>, t: Ty, ptr: Pointer, a: nat, depth: nat, v: Val)
    decreases t
  {
    depth < 64 &&
    match t
    case Scalar(k) => v.Num? && v.kind == k && ScalarAt(m, a, k, v.n)
    case Str => v.Text? && exists p: nat :: PairAt(m, ptr, a, p, |v.text|) && TextAt(m, p, v.text)
    case List(e) => v.Items? && exists p: nat ::
        && PairAt(m, ptr, a, p, |v.items|) && ArrayAt(m, e, ptr, p, |v.items|)
        && forall i :: 0 <= i < |v.items| ==> ValueAt(m, e, ptr, ItemPlace(p, i, Size(e, ptr)), depth + 1, v.items[i])
    case Fields(record, fields) =>
      v.Members? && v.record == record && |v.members| == |fields| != 0 &&
      forall i :: 0 <= i < |fields| ==> ValueAt(m, fields[i], ptr, a + FieldOffset(t, ptr, i), depth + 1, v.members[i])
    case Cases(family, cases) =>
      && v.Case? && v.family == family && v.index < |cases|
      && NumberAt(m, a, LabelWidth(|cases|), v.index) && v.payload.Some? == cases[v.index].Some?
      && (v.payload.Some? ==>
           ValueAt(m, cases[v.index].value, ptr, a + PayloadOffset(t, ptr), depth + 1, v.payload.value))
    case Enum(count) => v.Label? && v.choice < count && NumberAt(m, a, LabelWidth(count), v.choice)
    case Flags(count) =>
      v.FlagSet? && 0 < count <= 32 && v.bits < Pow2(count) && NumberAt(m, a, FlagsWidth(count), v.bits)
    case Handle(_) => v.HandleOf? && NumberAt(m, a, 4, v.handle)
  }

  // ---------------------------------------------------------------- numbers

  lemma {:induction false} NumberRead(m: seq<Byte>, a: nat, w: nat, n: nat)
    ensures ReadNumber(m, a, w) == Good(n) <==> NumberAt(m, a, w, n)
  {
    if a + w <= |m| {
      var s := m[a..a + w];
      FromLeDigits(s, n);
      forall i | 0 <= i < w
        ensures Le(n, w)[i] == n / Pow256(i) % 256 && s[i] == m[a + i]
      {
        LeDigit(n, w, i);
      }
      hide Le, FromLe, Pow256;
      if NumberAt(m, a, w, n) {
        assert s == Le(n, w);
      }
    }
  }

  /** Reading never yields two numbers. */
  lemma {:induction false} NumberOnce(m: seq<Byte>, a: nat, w: nat, n: nat, k: nat)
    requires NumberAt(m, a, w, n) && NumberAt(m, a, w, k)
    ensures n == k
  {
    NumberRead(m, a, w, n);
    NumberRead(m, a, w, k);
    hide NumberAt, ReadNumber;
  }

  /** The numbers of a kind, and the bits they have. */
  ghost predicate OfKind(k: ScalarKind, n: int, b: nat) {
    match k
    case Bool => n <= 1 && b == n
    case S8 => -128 <= n < 128 && b == (if n < 0 then n + 256 else n)
    case S16 => -32768 <= n < 32768 && b == (if n < 0 then n + 65536 else n)
    case S32 => -2147483648 <= n < 2147483648 && b == (if n < 0 then n + 4294967296 else n)
    case S64 => -9223372036854775808 <= n < 9223372036854775808 && b == (if n < 0 then n + 18446744073709551616 else n)
    case Char => n <= 1114111 && !(55296 <= n <= 57343) && b == n
    case _ => b == n
  }

  lemma {:induction false} BitsRead(k: ScalarKind, b: nat, n: int)
    requires b < Pow256(Width(k))
    ensures FromBits(k, b) == Good(n) <==> OfKind(k, n, b)
  {
    Powers();
    hide Pow256;
  }

  lemma {:induction false} ScalarNumber(m: seq<Byte>, a: nat, k: ScalarKind, n: int)
    ensures ScalarAt(m, a, k, n) <==> exists b: nat :: NumberAt(m, a, Width(k), b) && OfKind(k, n, b)
  {
    Powers();
    NumberNatural(m, a, Width(k), n);
    hide NumberAt, Pow256;
    if ScalarAt(m, a, k, n) {
      var b := if n < 0 then n + Pow256(Width(k)) else n;
      assert NumberAt(m, a, Width(k), b) && OfKind(k, n, b);
    }
  }

  lemma {:induction false} NumberNatural(m: seq<Byte>, a: nat, w: nat, n: int)
    ensures NumberAt(m, a, w, n) ==> 0 <= n < Pow256(w)
  {
  }

  lemma {:induction false} ScalarRead(m: seq<Byte>, a: nat, k: ScalarKind, b: nat, n: int)
    requires NumberAt(m, a, Width(k), b)
    ensures FromBits(k, b) == Good(n) <==> ScalarAt(m, a, k, n)
  {
    NumberNatural(m, a, Width(k), b);
    BitsRead(k, b, n);
    ScalarNumber(m, a, k, n);
    hide NumberAt, ScalarAt, OfKind, Pow256, FromBits;
    if ScalarAt(m, a, k, n) {
      var c: nat :| NumberAt(m, a, Width(k), c) && OfKind(k, n, c);
      NumberOnce(m, a, Width(k), b, c);
    }
  }

  // ---------------------------------------------------------------- lifting reads the image

  /** A memory that its owner may use all of. */
  ghost function Whole(m: seq<Byte>): Heap {
    Heap(m, Range(0, |m|), [])
  }

  /** A place for a value of type `t`: aligned and inside the memory. */
  ghost predicate Spot(m: seq<Byte>, t: Ty, ptr: Pointer, a: nat) {
    |m| <= MAX64 && Sized(t, ptr, 0) && a % Alignment(t, ptr) == 0 && a + Size(t, ptr) <= |m|
  }

  lemma {:induction false} SpotPlace(m: seq<Byte>, t: Ty, ptr: Pointer, a: nat)
    requires |m| <= MAX64
    ensures Spot(m, t, ptr, a) <==> Place(Whole(m), t, ptr, a)
  {
    hide Sized, Alignment, Size;
  }

  lemma {:induction false} PairRead(m: seq<Byte>, ptr: Pointer, a: nat, pointer: nat, length: nat)
    requires a + 2 * ptr <= |m| <= MAX64
    ensures LiftPair(m, ptr, a) == Good((pointer, length)) <==> PairAt(m, ptr, a, pointer, length)
  {
    NumberRead(m, a, ptr, pointer);
    NumberRead(m, a + ptr, ptr, length);
    hide NumberAt, ReadNumber;
  }

  lemma {:induction false} FieldsLifted(m: seq<Byte>, t: Ty, ptr: Pointer, a: nat, depth: nat, i: nat, vs: seq<Val>)
    requires t.Fields? && Spot(m, t, ptr, a) && |vs| == |t.fields| && i <= |vs|
    ensures LiftFields(m, t, ptr, a + FieldEnd(t, ptr, i), depth, i) == Good(vs[i..]) <==>
            forall j :: i <= j < |vs| ==>
              ValueAt(m, t.fields[j], ptr, a + FieldOffset(t, ptr, j), depth + 1, vs[j])
    decreases t, |vs| - i
  {
    hide AlignUp, Alignment, Size, FieldOffset, FieldEnd, LayoutOf, LiftAt, ValueAt, Sized;
    if i == |vs| {
      assert vs[i..] == [];
    } else {
      FieldSpot(m, t, ptr, a, i);
      FieldsLifted(m, t, ptr, a, depth, i + 1, vs);
      LiftExact(m, t.fields[i], ptr, a + FieldOffset(t, ptr, i), depth + 1, vs[i]);
      assert vs[i..] == [vs[i]] + vs[i + 1..];
      assert vs[i..][0] == vs[i] && vs[i..][1..] == vs[i + 1..];
    }
  }

  lemma {:induction false} FieldSpot(m: seq<Byte>, t: Ty, ptr: Pointer, a: nat, i: nat)
    requires t.Fields? && i < |t.fields| && Spot(m, t, ptr, a)
    ensures Spot(m, t.fields[i], ptr, a + FieldOffset(t, ptr, i))
    ensures LayoutOf(t.fields[i], ptr, 0) == Good(Layout(Alignment(t.fields[i], ptr), Size(t.fields[i], ptr)))
    ensures AlignUp(a + FieldEnd(t, ptr, i), Alignment(t.fields[i], ptr)) == a + FieldOffset(t, ptr, i)
    ensures a + FieldOffset(t, ptr, i) + Size(t.fields[i], ptr) == a + FieldEnd(t, ptr, i + 1) <= MAX64
  {
    hide AlignUp, Alignment, Size, FieldOffset, FieldEnd, LayoutOf, Sized, Place;
    SpotPlace(m, t, ptr, a);
    FieldPlaced(Whole(m), Whole(m), t, ptr, a, i);
    SpotPlace(m, t.fields[i], ptr, a + FieldOffset(t, ptr, i));
  }

  lemma {:induction false} FieldsLength(m: seq<Byte>, t: Ty, ptr: Pointer, cursor: nat, depth: nat, i: nat)
    requires t.Fields? && i <= |t.fields|
    ensures var r := LiftFields(m, t, ptr, cursor, depth, i); r.Good? ==> |r.v| == |t.fields| - i
    decreases |t.fields| - i
  {
    hide AlignUp, LayoutOf, LiftAt;
    if i < |t.fields| {
      var layout := LayoutOf(t.fields[i], ptr, 0);
      if layout.Good? && layout.v.alignment != 0 {
        FieldsLength(m, t, ptr, AlignUp(cursor, layout.v.alignment) + layout.v.size, depth, i + 1);
      }
    }
  }

  lemma {:induction false} RecordLifted(m: seq<Byte>, t: Ty, ptr: Pointer, a: nat, depth: nat, v: Val)
    requires t.Fields? && Spot(m, t, ptr, a) && depth < 64
    ensures LiftAt(m, t, ptr, a, depth) == Good(v) <==> ValueAt(m, t, ptr, a, depth, v)
    decreases t, Arity(t) + 2
  {
    hide AlignUp, Alignment, Size, FieldOffset, FieldEnd, LayoutOf, LiftFields;
    FieldsLength(m, t, ptr, a, depth, 0);
    FieldStart(t, ptr);
    if v.Members? && |v.members| == |t.fields| {
      FieldsLifted(m, t, ptr, a, depth, 0, v.members);
      assert v.members[0..] == v.members;
    }
  }

  lemma {:induction false} FieldStart(t: Ty, ptr: Pointer)
    requires t.Fields?
    ensures FieldEnd(t, ptr, 0) == 0
  {
  }

  lemma {:induction false} CaseLifted(m: seq<Byte>, t: Ty, ptr: Pointer, a: nat, depth: nat, v: Val)
    requires t.Cases? && Spot(m, t, ptr, a) && depth < 64
    ensures LiftAt(m, t, ptr, a, depth) == Good(v) <==> ValueAt(m, t, ptr, a, depth, v)
    decreases t, Arity(t) + 2
  {
    hide AlignUp, Alignment, Size, PayloadOffset, LayoutOf, PayloadPlace, ReadNumber, NumberAt, Place, LabelWidth;
    SpotPlace(m, t, ptr, a);
    if v.Case? && v.index < |t.cases| {
      NumberRead(m, a, LabelWidth(|t.cases|), v.index);
      PayloadPlaced(Whole(m), Whole(m), t, ptr, a, v.index);
      if t.cases[v.index].Some? && v.payload.Some? {
        SpotPlace(m, t.cases[v.index].value, ptr, a + PayloadOffset(t, ptr));
        LiftExact(m, t.cases[v.index].value, ptr, a + PayloadOffset(t, ptr), depth + 1, v.payload.value);
      }
    }
  }

  lemma {:induction false} ItemsLifted(m: seq<Byte>, t: Ty, ptr: Pointer, base: nat, depth: nat, vs: seq<Val>)
    requires t.List? && |m| <= MAX64 && ArrayAt(m, t.element, ptr, base, |vs|)
    ensures LiftItems(m, t, ptr, base, Size(t.element, ptr), depth, |vs|) == Good(vs) <==>
            ItemsAt(m, t.element, ptr, base, depth, vs)
    decreases t, 0, |vs|
  {
    hide AlignUp, Alignment, Size, LayoutOf, LiftAt, ValueAt, Sized;
    var e, s := t.element, Size(t.element, ptr);
    if vs != [] {
      ArrayRest(m, e, ptr, base, |vs|);
      ItemsLifted(m, t, ptr, base + s, depth, vs[1..]);
      LiftExact(m, e, ptr, base, depth + 1, vs[0]);
      ItemsShift(m, e, ptr, base, depth, vs);
      hide ItemsAt;
      assert vs == [vs[0]] + vs[1..];
    }
  }

  /** The elements `vs` of type `e`, one after the other. */
  ghost predicate ItemsAt(m: seq<Byte>, e: Ty, ptr: Pointer, base: nat, depth: nat, vs: seq<Val>) {
    forall i :: 0 <= i < |vs| ==> ValueAt(m, e, ptr, ItemPlace(base, i, Size(e, ptr)), depth + 1, vs[i])
  }

  lemma {:induction false} ItemsShift(m: seq<Byte>, e: Ty, ptr: Pointer, base: nat, depth: nat, vs: seq<Val>)
    requires vs != []
    ensures ItemsAt(m, e, ptr, base, depth, vs) <==>
            ValueAt(m, e, ptr, base, depth + 1, vs[0]) && ItemsAt(m, e, ptr, base + Size(e, ptr), depth, vs[1..])
  {
    hide ValueAt, Size, ItemPlace;
    var s := Size(e, ptr);
    PlaceShift(base, 0, s);
    if ItemsAt(m, e, ptr, base, depth, vs) {
      forall i | 0 <= i < |vs[1..]|
        ensures ValueAt(m, e, ptr, ItemPlace(base + s, i, s), depth + 1, vs[1..][i])
      {
        PlaceShift(base, i + 1, s);
        assert ValueAt(m, e, ptr, ItemPlace(base, i + 1, s), depth + 1, vs[i + 1]);
      }
    }
    if ValueAt(m, e, ptr, base, depth + 1, vs[0]) && ItemsAt(m, e, ptr, base + s, depth, vs[1..]) {
      forall i | 0 <= i < |vs|
        ensures ValueAt(m, e, ptr, ItemPlace(base, i, s), depth + 1, vs[i])
      {
        if i > 0 {
          PlaceShift(base, i, s);
          assert ValueAt(m, e, ptr, ItemPlace(base + s, i - 1, s), depth + 1, vs[1..][i - 1]);
        }
      }
    }
  }

  lemma {:induction false} PlaceShift(base: nat, i: nat, s: nat)
    ensures i == 0 ==> ItemPlace(base, i, s) == base
    ensures i > 0 ==> ItemPlace(base + s, i - 1, s) == ItemPlace(base, i, s)
  {
    if i > 0 {
      assert i * s == s + (i - 1) * s;
    }
  }

  lemma {:induction false} ArrayRest(m: seq<Byte>, e: Ty, ptr: Pointer, base: nat, count: nat)
    requires |m| <= MAX64 && ArrayAt(m, e, ptr, base, count) && count > 0
    ensures Spot(m, e, ptr, base) && ArrayAt(m, e, ptr, base + Size(e, ptr), count - 1)
  {
    hide Alignment, Size, Formed, Nesting;
    var s := Size(e, ptr);
    assert count * s == s + (count - 1) * s;
    assert (count - 1) * s >= 0;
    SizeFacts(e, ptr);
    AddModulo(base, s, Alignment(e, ptr));
  }

  /** The elements behind a pointer, whatever holds the pointer. */
  lemma {:induction false} ListRead(m: seq<Byte>, t: Ty, ptr: Pointer, pointer: nat, count: nat, depth: nat, v: Val)
    requires t.List? && |m| <= MAX64
    ensures LiftList(m, t, ptr, pointer, count, depth) == Good(v) <==>
            && v.Items? && |v.items| == count && ArrayAt(m, t.element, ptr, pointer, count)
            && ItemsAt(m, t.element, ptr, pointer, depth, v.items)
    decreases t, 1
  {
    hide AlignUp, Alignment, Size, LayoutOf, LiftItems, Formed, Nesting, ItemsAt;
    var e := t.element;
    LayoutExact(e, ptr, 0);
    if Formed(e) {
      SizeFacts(e, ptr);
    }
    ItemsCount(m, t, ptr, pointer, Size(e, ptr), depth, count);
    if v.Items? && |v.items| == count && ArrayAt(m, e, ptr, pointer, count) {
      ItemsLifted(m, t, ptr, pointer, depth, v.items);
    }
  }

  lemma {:induction false} ListLifted(m: seq<Byte>, t: Ty, ptr: Pointer, a: nat, depth: nat, v: Val)
    requires t.List? && Spot(m, t, ptr, a) && depth < 64
    ensures LiftAt(m, t, ptr, a, depth) == Good(v) <==> ValueAt(m, t, ptr, a, depth, v)
    decreases t, 2
  {
    hide Alignment, Size, LiftPair, LiftList, PairAt, ArrayAt, Sized;
    ListSize(t, ptr);
    var pair := LiftPair(m, ptr, a);
    if pair.Good? {
      PairRead(m, ptr, a, pair.v.0, pair.v.1);
      ListRead(m, t, ptr, pair.v.0, pair.v.1, depth, v);
    }
    if ValueAt(m, t, ptr, a, depth, v) {
      var p: nat :| && PairAt(m, ptr, a, p, |v.items|) && ArrayAt(m, t.element, ptr, p, |v.items|)
                    && ItemsAt(m, t.element, ptr, p, depth, v.items);
      PairRead(m, ptr, a, p, |v.items|);
    }
    if LiftAt(m, t, ptr, a, depth) == Good(v) {
      assert PairAt(m, ptr, a, pair.v.0, |v.items|) && ArrayAt(m, t.element, ptr, pair.v.0, |v.items|)
          && ItemsAt(m, t.element, ptr, pair.v.0, depth, v.items);
    }
  }

  lemma {:induction false} ItemsCount(m: seq<Byte>, t: Ty, ptr: Pointer, base: nat, stride: nat, depth: nat, count: nat)
    requires t.List?
    ensures var r := LiftItems(m, t, ptr, base, stride, depth, count); r.Good? ==> |r.v| == count
    decreases count
  {
    hide LiftAt;
    if count > 0 {
      ItemsCount(m, t, ptr, base + stride, stride, depth, count - 1);
    }
  }

  lemma {:induction false} TextLifted(m: seq<Byte>, t: Ty, ptr: Pointer, a: nat, depth: nat, v: Val)
    requires t.Str? && Spot(m, t, ptr, a) && depth < 64
    ensures LiftAt(m, t, ptr, a, depth) == Good(v) <==> ValueAt(m, t, ptr, a, depth, v)
  {
    hide LiftPair, PairAt;
    var pair := LiftPair(m, ptr, a);
    if pair.Good? {
      PairRead(m, ptr, a, pair.v.0, pair.v.1);
    }
    if ValueAt(m, t, ptr, a, depth, v) {
      var p: nat :| PairAt(m, ptr, a, p, |v.text|) && TextAt(m, p, v.text);
      PairRead(m, ptr, a, p, |v.text|);
    }
    if LiftAt(m, t, ptr, a, depth) == Good(v) {
      assert PairAt(m, ptr, a, pair.v.0, |v.text|) && TextAt(m, pair.v.0, v.text);
    }
  }

  lemma {:induction false} PlainLifted(m: seq<Byte>, t: Ty, ptr: Pointer, a: nat, depth: nat, v: Val)
    requires (t.Scalar? || t.Enum? || t.Flags? || t.Handle?) && Spot(m, t, ptr, a) && depth < 64
    ensures LiftAt(m, t, ptr, a, depth) == Good(v) <==> ValueAt(m, t, ptr, a, depth, v)
  {
    hide ReadNumber, NumberAt, ScalarAt, FromBits, LabelWidth, FlagsWidth, Pow2;
    match t
    case Scalar(k) =>
      var b := ReadNumber(m, a, Width(k));
      if b.Good? {
        NumberRead(m, a, Width(k), b.v);
        if v.Num? {
          ScalarRead(m, a, k, b.v, v.n);
        }
      } else if v.Num? && ScalarAt(m, a, k, v.n) {
        ScalarNumber(m, a, k, v.n);
        var c: nat :| NumberAt(m, a, Width(k), c) && OfKind(k, v.n, c);
        NumberRead(m, a, Width(k), c);
      }
    case Enum(count) =>
      if v.Label? {
        NumberRead(m, a, LabelWidth(count), v.choice);
      }
    case Flags(count) =>
      if v.FlagSet? {
        NumberRead(m, a, FlagsWidth(count), v.bits);
      }
    case Handle(_) =>
      if v.HandleOf? {
        NumberRead(m, a, 4, v.handle);
      }
  }

  /** Lifting yields a value exactly if the memory holds its image. */
  lemma {:induction false} LiftExact(m: seq<Byte>, t: Ty, ptr: Pointer, a: nat, depth: nat, v: Val)
    requires Spot(m, t, ptr, a)
    ensures LiftAt(m, t, ptr, a, depth) == Good(v) <==> ValueAt(m, t, ptr, a, depth, v)
    decreases t, Arity(t) + 3
  {
    if depth < 64 {
      hide LiftAt, ValueAt, Spot;
      match t
      case Str => TextLifted(m, t, ptr, a, depth, v);
      case List(_) => ListLifted(m, t, ptr, a, depth, v);
      case Fields(_, _) => RecordLifted(m, t, ptr, a, depth, v);
      case Cases(_, _) => CaseLifted(m, t, ptr, a, depth, v);
      case _ => PlainLifted(m, t, ptr, a, depth, v);
    }
  }

  // ---------------------------------------------------------------- the entry points

  /** Lifting from memory yields `v` exactly if the address is a fit place, inside
      the memory, that holds the image of `v`. */
  lemma {:induction false} LiftReads(m: seq<Byte>, t: Ty, ptr: Pointer, address: nat, v: Val)
    requires |m| <= MAX64
    ensures LiftValue(m, t, ptr, address) == Good(v) <==> Spot(m, t, ptr, address) && ValueAt(m, t, ptr, address, 0, v)
  {
    hide LayoutOf, Alignment, Size, LiftAt, ValueAt, Sized;
    LayoutExact(t, ptr, 0);
    LayoutFails(t, ptr, 0);
    if Spot(m, t, ptr, address) {
      LiftExact(m, t, ptr, address, 0, v);
    }
  }

  /** Lowering into memory leaves the image of the value. */
  lemma {:induction false} LowerWrites(h: Heap, t: Ty, ptr: Pointer, address: nat, v: Val)
    requires Mine(h, address, Size(t, ptr)) && LowerValue(h, t, ptr, address, v).Good?
    ensures var k := LowerValue(h, t, ptr, address, v).v;
            Spot(k.bytes, t, ptr, address) && ValueAt(k.bytes, t, ptr, address, 0, v)
  {
    hide Alignment, Size, LowerValue, LiftValue, ValueAt, Spot;
    LowerLift(h, t, ptr, address, v);
    var k := LowerValue(h, t, ptr, address, v).v;
    LowerBounded(h, t, ptr, address, v);
    LiftReads(k.bytes, t, ptr, address, v);
  }

  lemma {:induction false} LowerBounded(h: Heap, t: Ty, ptr: Pointer, address: nat, v: Val)
    requires Mine(h, address, Size(t, ptr)) && LowerValue(h, t, ptr, address, v).Good?
    ensures |LowerValue(h, t, ptr, address, v).v.bytes| <= MAX64
  {
    hide Alignment, Size, LowerAt, LiftAt, ValueAt, CheckPlace;
    CheckedPlace(h, t, ptr, address);
    ValueStored(h, h.bytes, t, ptr, address, 0, v);
  }

  // ---------------------------------------------------------------- parameter tuples

  /** A place for all the parameters; a 32-bit memory ends at 2^32. */
  ghost predicate TupleSpot(m: seq<Byte>, params: seq<Ty>, ptr: Pointer, a: nat) {
    var t := Tuple(params);
    && SizedParams(params, ptr, 0) && a % Alignment(t, ptr) == 0 && a + Size(t, ptr) <= |m|
    && (ptr == 4 ==> a < 0x1_0000_0000)
  }

  /** Every parameter at its offset in the tuple. */
  ghost predicate TupleAt(m: seq<Byte>, params: seq<Ty>, ptr: Pointer, a: nat, i: nat, vs: seq<Val>) {
    |vs| == |params| && forall j :: i <= j < |params| ==> ParameterAt(m, params, ptr, a, j, vs[j])
  }

  ghost predicate ParameterAt(m: seq<Byte>, params: seq<Ty>, ptr: Pointer, a: nat, i: nat, v: Val)
    requires i < |params|
  {
    ValueAt(m, params[i], ptr, a + FieldOffset(Tuple(params), ptr, i), 0, v)
  }

  lemma {:induction false} TupleSpotPlace(m: seq<Byte>, params: seq<Ty>, ptr: Pointer, a: nat)
    requires |m| <= MAX64 && TupleSpot(m, params, ptr, a)
    ensures TuplePlace(Whole(m), params, ptr, a)
  {
    hide SizedParams, Alignment, Size;
  }

  lemma {:induction false} TupleLifted(m: seq<Byte>, params: seq<Ty>, ptr: Pointer, a: nat, i: nat, vs: seq<Val>)
    requires |m| <= MAX64 && TuplePlace(Whole(m), params, ptr, a) && |vs| == |params| && i <= |vs|
    ensures LiftTuple(m, params, ptr, a, i, FieldEnd(Tuple(params), ptr, i)) == Good(vs[i..]) <==>
            TupleAt(m, params, ptr, a, i, vs)
    decreases |vs| - i
  {
    hide AlignUp, Alignment, Size, FieldEnd, LayoutOf, LiftValue, Place, TuplePlace, ParameterAt;
    if i == |vs| {
      assert vs[i..] == [];
    } else {
      ParameterPlaced(Whole(m), Whole(m), params, ptr, a, i);
      TupleLifted(m, params, ptr, a, i + 1, vs);
      ParameterRead(m, params, ptr, a, i, vs[i]);
      assert vs[i..] == [vs[i]] + vs[i + 1..];
      assert vs[i..][0] == vs[i] && vs[i..][1..] == vs[i + 1..];
    }
  }

  lemma {:induction false} ParameterRead(m: seq<Byte>, params: seq<Ty>, ptr: Pointer, a: nat, i: nat, v: Val)
    requires |m| <= MAX64 && i < |params| && Place(Whole(m), params[i], ptr, a + FieldOffset(Tuple(params), ptr, i))
    ensures LiftValue(m, params[i], ptr, a + FieldOffset(Tuple(params), ptr, i)) == Good(v) <==>
            ParameterAt(m, params, ptr, a, i, v)
  {
    hide FieldOffset, LiftValue, Place, Spot, ValueAt;
    var o := FieldOffset(Tuple(params), ptr, i);
    SpotPlace(m, params[i], ptr, a + o);
    LiftReads(m, params[i], ptr, a + o, v);
  }

  lemma {:induction false} TupleLength(m: seq<Byte>, params: seq<Ty>, ptr: Pointer, a: nat, i: nat, offset: nat)
    requires i <= |params|
    ensures var r := LiftTuple(m, params, ptr, a, i, offset); r.Good? ==> |r.v| == |params| - i
    decreases |params| - i
  {
    hide AlignUp, LayoutOf, LiftValue;
    if i < |params| {
      var layout := LayoutOf(params[i], ptr, 0);
      if layout.Good? && layout.v.alignment != 0 {
        TupleLength(m, params, ptr, a, i + 1, AlignUp(offset, layout.v.alignment) + layout.v.size);
      }
    }
  }

  /** Parameters are lifted from memory exactly as the tuple that they form lies
      there. */
  lemma {:induction false} ParametersRead(m: seq<Byte>, params: seq<Ty>, ptr: Pointer, address: nat, vs: seq<Val>)
    requires |m| <= MAX64
    ensures LiftParameters(m, params, ptr, address) == Good(vs) <==>
            TupleSpot(m, params, ptr, address) && TupleAt(m, params, ptr, address, 0, vs)
  {
    hide AlignUp, Alignment, Size, FieldEnd, LiftTuple, TuplePlace, ParameterLayout, SizedParams, FieldAlignment;
    TupleStart(params, ptr);
    ParameterLayoutExact(params, ptr, 0);
    TupleLength(m, params, ptr, address, 0, 0);
    if TupleSpot(m, params, ptr, address) && |vs| == |params| {
      TupleSpotPlace(m, params, ptr, address);
      TupleLifted(m, params, ptr, address, 0, vs);
      assert vs[0..] == vs;
    }
  }
}
