/**
  The layout of the Canonical ABI without computing it: of all the ways to place
  a value in memory that keep every part aligned, in order and apart, it is the
  tightest (src/component_canonical.c).
 */
module CanonicalLeast {
  import opened Common
  import opened Bytes
  import opened CanonicalLayout

  // ---------------------------------------------------------------- numbers

  /** A number of the range from `low` to `high` has a two's complement, or for
      `low` zero a binary, pattern of `w` bytes. */
  predicate Spans(w: nat, low: int, high: int) {
    if low < 0 then -(Pow256(w) / 2) <= low && high < Pow256(w) / 2 else high < Pow256(w)
  }

  /** The smallest and the largest number of a kind; of the floats, of their bits. */
  function Lowest(k: ScalarKind): int {
    match k
    case S8 => -128 case S16 => -32768 case S32 => -2147483648 case S64 => -9223372036854775808
    case _ => 0
  }

  function Highest(k: ScalarKind): int {
    match k
    case Bool => 1 case Char => 1114111
    case S8 => 127 case S16 => 32767 case S32 => 2147483647 case S64 => 9223372036854775807
    case U8 => 255 case U16 => 65535 case U32 => 4294967295 case U64 => 18446744073709551615
    case F32 => 4294967295 case F64 => 18446744073709551615
  }

  lemma {:induction false} Powers()
    ensures Pow256(1) == 256 && Pow256(2) == 65536 && Pow256(4) == 4294967296 && Pow256(8) == 18446744073709551616
  {
    assert Pow256(3) == 16777216;
    assert Pow256(5) == 1099511627776 && Pow256(6) == 281474976710656;
  }

  /** A number takes the least number of bytes, among 1, 2, 4 and 8, that holds
      every number of its kind. */
  lemma {:induction false} ScalarLeast(k: ScalarKind, w: nat)
    requires w in {1, 2, 4, 8}
    ensures Spans(w, Lowest(k), Highest(k)) <==> Width(k) <= w
  {
    Powers();
  }

  /** A discriminant takes the least number of bytes, among 1, 2 and 4, that tells
      its cases apart. */
  lemma {:induction false} LabelLeast(count: nat, w: nat)
    requires 0 < count <= 0x1_0000_0000 && w in {1, 2, 4}
    ensures count <= Pow256(w) <==> LabelWidth(count) <= w
  {
    Powers();
  }

  /** Flags take the least number of bytes, among 1, 2 and 4, with a bit for each. */
  lemma {:induction false} FlagsLeast(count: nat, w: nat)
    requires 0 < count <= 32 && w in {1, 2, 4}
    ensures count <= 8 * w <==> FlagsWidth(count) <= w
  {
  }

  /** Rounding up gives the next multiple. */
  lemma {:induction false} AlignUpLeast(v: nat, a: nat, m: nat)
    requires Power(a) && v <= m && m % a == 0
    ensures v <= AlignUp(v, a) <= m && AlignUp(v, a) % a == 0
  {
    AlignUpFacts(v, a);
    if m < AlignUp(v, a) {
      AddModulo(m, AlignUp(v, a) - m, a);
    }
  }

  // ---------------------------------------------------------------- records

  /** The fields of `t` at `places`: each aligned, after the one before it, and
      inside `size` bytes, which keep an array of such records aligned. */
  ghost predicate RecordPlan(t: Ty, ptr: Pointer, alignment: nat, places: seq<nat>, size: nat)
    requires t.Fields?
  {
    && alignment > 0 && |places| == |t.fields|
    && (forall i :: 0 <= i < |places| ==> alignment % Alignment(t.fields[i], ptr) == 0)
    && (forall i :: 0 <= i < |places| ==> places[i] % Alignment(t.fields[i], ptr) == 0)
    && (forall i, j :: 0 <= i < j < |places| ==> places[i] + Size(t.fields[i], ptr) <= places[j])
    && (forall i :: 0 <= i < |places| ==> places[i] + Size(t.fields[i], ptr) <= size)
    && size % alignment == 0
  }

  ghost function FieldPlaces(t: Ty, ptr: Pointer): (s: seq<nat>)
    requires t.Fields?
    ensures |s| == |t.fields|
  {
    seq(|t.fields|, i requires 0 <= i < |t.fields| => FieldOffset(t, ptr, i))
  }

  lemma {:induction false} DividesThrough(v: nat, m: nat, a: nat)
    requires Power(a) && m > 0 && v % m == 0 && m % a == 0
    ensures v % a == 0
  {
    var q, r := v / m, m / a;
    assert v == m * q && m == a * r;
    assert v == a * (r * q) by {
      assert (a * r) * q == a * (r * q);
    }
    Multiple(v, r * q, a);
  }

  ghost predicate AlignedAs(t: Ty, ptr: Pointer, n: nat, a: nat)
    requires t.Fields? && n <= |t.fields|
  {
    exists i :: 0 <= i < n && Alignment(t.fields[i], ptr) == a
  }

  /** The alignment of the first `n` fields is that of one of them. */
  lemma {:induction false} FieldAlignmentTaken(t: Ty, ptr: Pointer, n: nat)
    requires t.Fields? && n <= |t.fields|
    ensures FieldAlignment(t, ptr, n) == 1 || AlignedAs(t, ptr, n, FieldAlignment(t, ptr, n))
  {
    hide AlignUp;
    if n > 0 {
      FieldAlignmentTaken(t, ptr, n - 1);
      assert FieldAlignment(t, ptr, n) in {FieldAlignment(t, ptr, n - 1), Alignment(t.fields[n - 1], ptr)};
    }
  }

  lemma {:induction false} PowerOrder(a: nat, b: nat)
    requires Power(a) && Power(b) && a <= b
    ensures b % a == 0
  {
  }

  /** The computed places are such a plan ... */
  lemma {:induction false} RecordPlanned(t: Ty, ptr: Pointer)
    requires t.Fields?
    ensures RecordPlan(t, ptr, Alignment(t, ptr), FieldPlaces(t, ptr), Size(t, ptr))
  {
    AlignUpFacts(FieldEnd(t, ptr, |t.fields|), Alignment(t, ptr));
    assert Size(t, ptr) % Alignment(t, ptr) == 0;
    hide AlignUp, Alignment, Size, FieldOffset;
    forall i | 0 <= i < |t.fields|
      ensures Alignment(t, ptr) % Alignment(t.fields[i], ptr) == 0
      ensures FieldPlaces(t, ptr)[i] % Alignment(t.fields[i], ptr) == 0
      ensures FieldPlaces(t, ptr)[i] + Size(t.fields[i], ptr) <= Size(t, ptr)
    {
      FieldPlacement(t, ptr, i);
      PowerOrder(Alignment(t.fields[i], ptr), Alignment(t, ptr));
    }
    forall i, j | 0 <= i < j < |t.fields|
      ensures FieldPlaces(t, ptr)[i] + Size(t.fields[i], ptr) <= FieldPlaces(t, ptr)[j]
    {
      FieldsDisjoint(t, ptr, i, j);
    }
  }

  /** Where fields may start in a plan, field by field. */
  lemma {:induction false} PlacesLeast(t: Ty, ptr: Pointer, alignment: nat, places: seq<nat>, size: nat, n: nat)
    requires t.Fields? && RecordPlan(t, ptr, alignment, places, size) && n <= |t.fields|
    ensures FieldEnd(t, ptr, n) <= if n < |t.fields| then places[n] else size
    ensures n < |t.fields| ==> FieldOffset(t, ptr, n) <= places[n]
    decreases n
  {
    hide AlignUp, Alignment, Size;
    if n > 0 {
      PlacesLeast(t, ptr, alignment, places, size, n - 1);
      assert FieldEnd(t, ptr, n) == FieldOffset(t, ptr, n - 1) + Size(t.fields[n - 1], ptr);
    }
    if n < |t.fields| {
      AlignUpLeast(FieldEnd(t, ptr, n), Alignment(t.fields[n], ptr), places[n]);
    }
  }

  lemma {:induction false} RecordSizeLeast(t: Ty, ptr: Pointer, size: nat)
    requires t.Fields? && FieldEnd(t, ptr, |t.fields|) <= size && size % Alignment(t, ptr) == 0
    ensures Size(t, ptr) <= size
  {
    AlignUpLeast(FieldEnd(t, ptr, |t.fields|), Alignment(t, ptr), size);
    hide AlignUp, Alignment;
  }

  lemma {:induction false} PowerBound(m: nat, a: nat)
    requires Power(a) && m > 0 && m % a == 0
    ensures a <= m
  {
  }

  lemma {:induction false} RecordAlignmentLeast(t: Ty, ptr: Pointer, alignment: nat, places: seq<nat>, size: nat)
    requires t.Fields? && RecordPlan(t, ptr, alignment, places, size)
    ensures |places| == |t.fields|
    ensures Alignment(t, ptr) <= alignment && alignment % Alignment(t, ptr) == 0 && size % Alignment(t, ptr) == 0
  {
    hide AlignUp, Size, FieldAlignment;
    FieldAlignmentTaken(t, ptr, |t.fields|);
    assert Alignment(t, ptr) == FieldAlignment(t, ptr, |t.fields|);
    PowerBound(alignment, Alignment(t, ptr));
    DividesThrough(size, alignment, Alignment(t, ptr));
  }

  /** ... and no plan is smaller, starts a field earlier, or gets by with a
      weaker alignment. */
  lemma {:induction false} RecordLeast(t: Ty, ptr: Pointer, alignment: nat, places: seq<nat>, size: nat)
    requires t.Fields? && RecordPlan(t, ptr, alignment, places, size)
    ensures Alignment(t, ptr) <= alignment && alignment % Alignment(t, ptr) == 0
    ensures Size(t, ptr) <= size
    ensures forall i :: 0 <= i < |places| ==> FieldPlaces(t, ptr)[i] <= places[i]
  {
    hide AlignUp, Alignment, Size, FieldOffset, FieldAlignment, FieldEnd, RecordPlan;
    RecordAlignmentLeast(t, ptr, alignment, places, size);
    PlacesLeast(t, ptr, alignment, places, size, |t.fields|);
    RecordSizeLeast(t, ptr, size);
    forall i | 0 <= i < |places|
      ensures FieldPlaces(t, ptr)[i] <= places[i]
    {
      PlacesLeast(t, ptr, alignment, places, size, i);
    }
  }

  // ---------------------------------------------------------------- variants

  /** A discriminant of `width` bytes at the start, and behind it room for every
      payload at the same `place`. */
  ghost predicate VariantPlan(t: Ty, ptr: Pointer, alignment: nat, width: nat, place: nat, size: nat)
    requires t.Cases?
  {
    && alignment > 0 && width in {1, 2, 4} && |t.cases| <= Pow256(width) && alignment % width == 0
    && width <= place <= size && size % alignment == 0
    && (forall i :: 0 <= i < |t.cases| && t.cases[i].Some? ==>
         PayloadFits(t.cases[i].value, ptr, alignment, place, size))
  }

  ghost predicate PayloadFits(t: Ty, ptr: Pointer, alignment: nat, place: nat, size: nat) {
    alignment % Alignment(t, ptr) == 0 && place % Alignment(t, ptr) == 0 && place + Size(t, ptr) <= size
  }

  ghost predicate CaseAlignedAs(t: Ty, ptr: Pointer, n: nat, a: nat)
    requires t.Cases? && n <= |t.cases|
  {
    exists i :: 0 <= i < n && t.cases[i].Some? && Alignment(t.cases[i].value, ptr) == a
  }

  ghost predicate CaseSizedAs(t: Ty, ptr: Pointer, n: nat, size: nat)
    requires t.Cases? && n <= |t.cases|
  {
    exists i :: 0 <= i < n && t.cases[i].Some? && Size(t.cases[i].value, ptr) == size
  }

  lemma {:induction false} CasesTaken(t: Ty, ptr: Pointer, n: nat)
    requires t.Cases? && n <= |t.cases|
    ensures CaseAlignment(t, ptr, n) == 1 || CaseAlignedAs(t, ptr, n, CaseAlignment(t, ptr, n))
    ensures CaseSize(t, ptr, n) == 0 || CaseSizedAs(t, ptr, n, CaseSize(t, ptr, n))
  {
    hide AlignUp, Alignment, Size;
    if n > 0 {
      CasesTaken(t, ptr, n - 1);
      if t.cases[n - 1].Some? {
        assert CaseAlignment(t, ptr, n) in {CaseAlignment(t, ptr, n - 1), Alignment(t.cases[n - 1].value, ptr)};
        assert CaseSize(t, ptr, n) in {CaseSize(t, ptr, n - 1), Size(t.cases[n - 1].value, ptr)};
      }
    }
  }

  /** The computed layout is such a plan ... */
  lemma {:induction false} VariantPlanned(t: Ty, ptr: Pointer)
    requires t.Cases? && 0 < |t.cases| <= 0x1_0000_0000
    ensures VariantPlan(t, ptr, Alignment(t, ptr), LabelWidth(|t.cases|), PayloadOffset(t, ptr), Size(t, ptr))
  {
    LabelLeast(|t.cases|, LabelWidth(|t.cases|));
    PowerOrder(LabelWidth(|t.cases|), Alignment(t, ptr));
    PayloadPlacement(t, ptr, 0);
    VariantSize(t, ptr);
    hide AlignUp, Alignment, Size, LabelWidth, PayloadOffset;
    forall i | 0 <= i < |t.cases| && t.cases[i].Some?
      ensures PayloadFits(t.cases[i].value, ptr, Alignment(t, ptr), PayloadOffset(t, ptr), Size(t, ptr))
    {
      PayloadPlacement(t, ptr, i);
      PowerOrder(Alignment(t.cases[i].value, ptr), Alignment(t, ptr));
    }
  }

  /** ... and no plan is smaller, starts the payload earlier, or gets by with a
      narrower discriminant or a weaker alignment. */
  lemma {:induction false} VariantLeast(t: Ty, ptr: Pointer, alignment: nat, width: nat, place: nat, size: nat)
    requires t.Cases? && t.cases != [] && VariantPlan(t, ptr, alignment, width, place, size)
    ensures LabelWidth(|t.cases|) <= width && PayloadOffset(t, ptr) <= place && Size(t, ptr) <= size
    ensures Alignment(t, ptr) <= alignment && alignment % Alignment(t, ptr) == 0
  {
    hide AlignUp, Alignment, Size, LabelWidth, PayloadOffset, CaseAlignment, CaseSize;
    VariantForm(t, ptr);
    var n := |t.cases|;
    var payload, tag := CaseAlignment(t, ptr, n), LabelWidth(n);
    PayloadLeast(t, ptr, alignment, width, place, size);
    assert alignment % tag == 0 by {
      PowerOrder(tag, width);
      DividesThrough(alignment, width, tag);
    }
    AlignUpLeast(tag, payload, place);
    PowerBound(alignment, Alignment(t, ptr));
    DividesThrough(size, alignment, Alignment(t, ptr));
    AlignUpLeast(PayloadOffset(t, ptr) + CaseSize(t, ptr, n), Alignment(t, ptr), size);
  }

  lemma {:induction false} VariantForm(t: Ty, ptr: Pointer)
    requires t.Cases? && t.cases != []
    ensures var n := |t.cases|;
            && Alignment(t, ptr) in {CaseAlignment(t, ptr, n), LabelWidth(n)}
            && Size(t, ptr) == AlignUp(PayloadOffset(t, ptr) + CaseSize(t, ptr, n), Alignment(t, ptr))
            && PayloadOffset(t, ptr) == AlignUp(LabelWidth(n), CaseAlignment(t, ptr, n))
  {
    hide AlignUp, LabelWidth, CaseAlignment, CaseSize;
  }

  lemma {:induction false} PayloadLeast(t: Ty, ptr: Pointer, alignment: nat, width: nat, place: nat, size: nat)
    requires t.Cases? && t.cases != [] && VariantPlan(t, ptr, alignment, width, place, size)
    ensures var n := |t.cases|;
            && LabelWidth(n) <= width && place + CaseSize(t, ptr, n) <= size
            && alignment % CaseAlignment(t, ptr, n) == 0 && place % CaseAlignment(t, ptr, n) == 0
  {
    hide AlignUp, Alignment, Size, CaseAlignment, CaseSize;
    Powers();
    LabelLeast(|t.cases|, width);
    CasesTaken(t, ptr, |t.cases|);
  }

  // ---------------------------------------------------------------- the rest

  /** Strings and lists are two pointers, handles one 32-bit number, and enums
      and flags nothing but their label and their bits. */
  lemma {:induction false} LeafLayout(t: Ty, ptr: Pointer)
    requires Formed(t) && !t.Fields? && !t.Cases?
    ensures match t
            case Scalar(k) => Alignment(t, ptr) == Size(t, ptr) == Width(k)
            case Enum(count) => Alignment(t, ptr) == Size(t, ptr) == LabelWidth(count)
            case Flags(count) => Alignment(t, ptr) == Size(t, ptr) == FlagsWidth(count)
            case Handle(_) => Alignment(t, ptr) == Size(t, ptr) == 4
            case _ => Alignment(t, ptr) == ptr && Size(t, ptr) == ptr + ptr
  {
    hide AlignUp;
  }
}
