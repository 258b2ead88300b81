/**
  Component value types and their layout in linear memory
  (src/component_canonical.c; "Alignment" and "Element Size" of the Component
  Model Canonical ABI).
 */
module CanonicalLayout {
  import opened Common

  // ---------------------------------------------------------------- types

  datatype ScalarKind = Bool | S8 | U8 | S16 | U16 | S32 | U32 | S64 | U64 | F32 | F64 | Char

  datatype CaseKind = VariantCases | OptionCases | ResultCases

  /** A value type, unfolded from the type graph. Options and results are listed
      as their two cases; a handle is an owned or borrowed resource, a future or
      a stream. */
  datatype Ty =
    | Scalar(scalar: ScalarKind)
    | Str
    | List(element: Ty)
    | Fields(record: bool, fields: seq<Ty>)
    | Cases(kind: CaseKind, cases: seq<Option<Ty>>)
    | Enum(labels: nat)
    | Flags(flags: nat)
    | Handle(resource: nat)

  function Arity(t: Ty): nat {
    if t.Fields? then |t.fields| else if t.Cases? then |t.cases| else 0
  }

  const MAX_DEPTH := 64

  datatype Result<T> = Good(v: T) | Bad(status: Status)

  datatype Layout = Layout(alignment: nat, size: nat)

  /** The width of a guest pointer. */
  type Pointer = p: nat | p == 4 || p == 8 witness 4

  function Width(k: ScalarKind): (w: nat)
    ensures w in {1, 2, 4, 8}
  {
    match k
    case Bool => 1 case S8 => 1 case U8 => 1
    case S16 => 2 case U16 => 2
    case S32 => 4 case U32 => 4 case F32 => 4 case Char => 4
    case S64 => 8 case U64 => 8 case F64 => 8
  }

  function AlignUp(v: nat, a: nat): (r: nat)
    requires a > 0
  {
    if v % a == 0 then v else v + (a - v % a)
  }

  /** `enum_storage_width`, for counts above zero. */
  function LabelWidth(count: nat): (w: nat)
    requires count > 0
    ensures w in {1, 2, 4}
  {
    if count <= 256 then 1 else if count <= 65536 then 2 else 4
  }

  function FlagsWidth(count: nat): (w: nat)
    requires 0 < count <= 32
    ensures w in {1, 2, 4}
  {
    if count <= 8 then 1 else if count <= 16 then 2 else 4
  }

  function Max(a: nat, b: nat): nat {
    if a > b then a else b
  }

  // ---------------------------------------------------------------- layout as computed

  /** Layout, with the recursion bound and the 64-bit overflow checks. */
  function LayoutOf(t: Ty, ptr: Pointer, depth: nat): (r: Result<Layout>)
    decreases t, Arity(t) + 1
  {
    if depth >= MAX_DEPTH then Bad(Unsupported)
    else
      match t
      case Scalar(k) => Good(Layout(Width(k), Width(k)))
      case Str => Good(Layout(ptr, 2 * ptr))
      case List(_) => Good(Layout(ptr, 2 * ptr))
      case Fields(_, fields) => if fields == [] then Bad(MalformedModule) else FieldsLayout(t, ptr, depth, 0, 1, 0)
      case Cases(_, cases) => if cases == [] then Bad(MalformedModule) else CasesLayout(t, ptr, depth, 0, 1, 0)
      case Enum(count) => if count == 0 then Bad(MalformedModule)
        else Good(Layout(LabelWidth(count), LabelWidth(count)))
      case Flags(count) => if count == 0 || count > 32 then Bad(MalformedModule)
        else Good(Layout(FlagsWidth(count), FlagsWidth(count)))
      case Handle(_) => Good(Layout(4, 4))
  }

  /** The loop over the fields from `i` on. */
  function FieldsLayout(t: Ty, ptr: Pointer, depth: nat, i: nat, alignment: nat, offset: nat): (r: Result<Layout>)
    requires t.Fields? && i <= |t.fields| && alignment > 0 && depth < MAX_DEPTH
    decreases t, |t.fields| - i
  {
    if i == |t.fields| then
      if AlignUp(offset, alignment) > MAX64 then Bad(Unsupported)
      else Good(Layout(alignment, AlignUp(offset, alignment)))
    else
      var child := LayoutOf(t.fields[i], ptr, depth + 1);
      if child.Bad? then child
      else if child.v.alignment == 0 || AlignUp(offset, child.v.alignment) + child.v.size > MAX64 then Bad(Unsupported)
      else FieldsLayout(t, ptr, depth, i + 1, Max(alignment, child.v.alignment),
        AlignUp(offset, child.v.alignment) + child.v.size)
  }

  /** The loop over the cases from `i` on. */
  function CasesLayout(t: Ty, ptr: Pointer, depth: nat, i: nat, alignment: nat, size: nat): (r: Result<Layout>)
    requires t.Cases? && t.cases != [] && i <= |t.cases| && alignment > 0 && depth < MAX_DEPTH
    decreases t, |t.cases| - i
  {
    if i == |t.cases| then
      var width := LabelWidth(|t.cases|);
      var total := AlignUp(AlignUp(width, alignment) + size, Max(alignment, width));
      if total > MAX64 then Bad(Unsupported) else Good(Layout(Max(alignment, width), total))
    else if t.cases[i].None? then CasesLayout(t, ptr, depth, i + 1, alignment, size)
    else
      var child := LayoutOf(t.cases[i].value, ptr, depth + 1);
      if child.Bad? then child
      else CasesLayout(t, ptr, depth, i + 1, Max(alignment, child.v.alignment), Max(size, child.v.size))
  }

  // ---------------------------------------------------------------- layout as specified

  /** `alignment` of the Canonical ABI. */
  function Alignment(t: Ty, ptr: Pointer): (a: nat)
    ensures a in {1, 2, 4, 8}
    decreases t, Arity(t) + 1
  {
    match t
    case Scalar(k) => Width(k)
    case Str => ptr
    case List(_) => ptr
    case Fields(_, fields) => FieldAlignment(t, ptr, |fields|)
    case Cases(_, cases) => if cases == [] then 1 else Max(CaseAlignment(t, ptr, |cases|), LabelWidth(|cases|))
    case Enum(count) => if count == 0 then 1 else LabelWidth(count)
    case Flags(count) => if count == 0 || count > 32 then 1 else FlagsWidth(count)
    case Handle(_) => 4
  }

  /** The largest alignment of the first `n` fields. */
  function FieldAlignment(t: Ty, ptr: Pointer, n: nat): (a: nat)
    requires t.Fields? && n <= |t.fields|
    ensures a in {1, 2, 4, 8}
    decreases t, n
  {
    if n == 0 then 1 else Max(FieldAlignment(t, ptr, n - 1), Alignment(t.fields[n - 1], ptr))
  }

  function CaseAlignment(t: Ty, ptr: Pointer, n: nat): (a: nat)
    requires t.Cases? && n <= |t.cases|
    ensures a in {1, 2, 4, 8}
    decreases t, n
  {
    if n == 0 then 1
    else Max(CaseAlignment(t, ptr, n - 1), if t.cases[n - 1].None? then 1 else Alignment(t.cases[n - 1].value, ptr))
  }

  /** `elem_size` of the Canonical ABI. */
  function Size(t: Ty, ptr: Pointer): (s: nat)
    decreases t, Arity(t) + 1
  {
    match t
    case Scalar(k) => Width(k)
    case Str => 2 * ptr
    case List(_) => 2 * ptr
    case Fields(_, fields) => AlignUp(FieldEnd(t, ptr, |fields|), Alignment(t, ptr))
    case Cases(_, cases) => AlignUp(PayloadOffset(t, ptr) + CaseSize(t, ptr, |cases|), Alignment(t, ptr))
    case Enum(count) => if count == 0 then 1 else LabelWidth(count)
    case Flags(count) => if count == 0 || count > 32 then 1 else FlagsWidth(count)
    case Handle(_) => 4
  }

  /** Where the first `n` fields end. */
  function FieldEnd(t: Ty, ptr: Pointer, n: nat): (e: nat)
    requires t.Fields? && n <= |t.fields|
    decreases t, n
  {
    if n == 0 then 0 else AlignUp(FieldEnd(t, ptr, n - 1), Alignment(t.fields[n - 1], ptr)) + Size(t.fields[n - 1], ptr)
  }

  /** Where field `i` starts. */
  function FieldOffset(t: Ty, ptr: Pointer, i: nat): (o: nat)
    requires t.Fields? && i < |t.fields|
  {
    AlignUp(FieldEnd(t, ptr, i), Alignment(t.fields[i], ptr))
  }

  /** Where the payload of a case starts. */
  function PayloadOffset(t: Ty, ptr: Pointer): (o: nat)
    requires t.Cases?
  {
    if t.cases == [] then 0 else AlignUp(LabelWidth(|t.cases|), CaseAlignment(t, ptr, |t.cases|))
  }

  function CaseSize(t: Ty, ptr: Pointer, n: nat): (s: nat)
    requires t.Cases? && n <= |t.cases|
    decreases t, n
  {
    if n == 0 then 0
    else Max(CaseSize(t, ptr, n - 1), if t.cases[n - 1].None? then 0 else Size(t.cases[n - 1].value, ptr))
  }

  // ---------------------------------------------------------------- arithmetic

  predicate Power(a: nat) {
    a in {1, 2, 4, 8}
  }

  lemma {:induction false} AlignUpFacts(v: nat, a: nat)
    requires Power(a)
    ensures v <= AlignUp(v, a) < v + a && AlignUp(v, a) % a == 0
  {
  }

  /** A smaller power of two divides what a larger one divides. */
  lemma {:induction false} Divides(v: nat, a: nat, b: nat)
    requires Power(a) && Power(b) && a <= b && v % b == 0
    ensures v % a == 0
  {
    var q := v / b;
    assert v == b * q;
    if b == 8 {
      Multiple(v, if a == 8 then q else if a == 4 then 2 * q else if a == 2 then 4 * q else 8 * q, a);
    } else if b == 4 {
      Multiple(v, if a == 4 then q else if a == 2 then 2 * q else 4 * q, a);
    } else {
      Multiple(v, if a == b then q else 2 * q, a);
    }
  }

  lemma {:induction false} Multiple(v: nat, q: nat, a: nat)
    requires Power(a) && v == a * q
    ensures v % a == 0
  {
    AddMultiple(0, q, a);
  }

  /** Aligning an absolute address is aligning the offset from an aligned base. */
  lemma {:induction false} AlignAbsolute(base: nat, offset: nat, a: nat)
    requires Power(a) && base % a == 0
    ensures AlignUp(base + offset, a) == base + AlignUp(offset, a)
  {
    AddModulo(base, offset, a);
  }

  lemma {:induction false} AddModulo(base: nat, offset: nat, a: nat)
    requires Power(a) && base % a == 0
    ensures (base + offset) % a == offset % a
  {
    var q := base / a;
    assert base == a * q;
    AddMultiple(offset, q, a);
  }

  lemma {:induction false} AddMultiple(offset: nat, q: nat, a: nat)
    requires Power(a)
    ensures (a * q + offset) % a == offset % a
    decreases q
  {
    if q != 0 {
      AddMultiple(offset, q - 1, a);
      AddOnce(a * (q - 1) + offset, a);
    }
  }

  lemma {:induction false} AddOnce(v: nat, a: nat)
    requires Power(a)
    ensures (v + a) % a == v % a
  {
  }

  // ---------------------------------------------------------------- well-formed types

  /** No empty record, tuple, variant or enum anywhere that layout looks. */
  predicate Formed(t: Ty)
    decreases t, Arity(t) + 1
  {
    match t
    case Fields(_, fields) => fields != [] && FormedFields(t, |fields|)
    case Cases(_, cases) => cases != [] && FormedCases(t, |cases|)
    case Enum(count) => count > 0
    case Flags(count) => 0 < count <= 32
    case _ => true
  }

  predicate FormedFields(t: Ty, n: nat)
    requires t.Fields? && n <= |t.fields|
    decreases t, n
  {
    n == 0 || (FormedFields(t, n - 1) && Formed(t.fields[n - 1]))
  }

  predicate FormedCases(t: Ty, n: nat)
    requires t.Cases? && n <= |t.cases|
    decreases t, n
  {
    n == 0 || (FormedCases(t, n - 1) && (t.cases[n - 1].None? || Formed(t.cases[n - 1].value)))
  }

  /** How deep layout recurses; lists are not followed. */
  function Nesting(t: Ty): (n: nat)
    decreases t, Arity(t) + 1
  {
    match t
    case Fields(_, fields) => 1 + FieldsNesting(t, |fields|)
    case Cases(_, cases) => 1 + CasesNesting(t, |cases|)
    case _ => 1
  }

  function FieldsNesting(t: Ty, n: nat): (r: nat)
    requires t.Fields? && n <= |t.fields|
    decreases t, n
  {
    if n == 0 then 0 else Max(FieldsNesting(t, n - 1), Nesting(t.fields[n - 1]))
  }

  function CasesNesting(t: Ty, n: nat): (r: nat)
    requires t.Cases? && n <= |t.cases|
    decreases t, n
  {
    if n == 0 then 0 else Max(CasesNesting(t, n - 1), if t.cases[n - 1].None? then 0 else Nesting(t.cases[n - 1].value))
  }

  lemma {:induction false} FormedField(t: Ty, n: nat, i: nat)
    requires t.Fields? && n <= |t.fields| && i < n && FormedFields(t, n)
    ensures Formed(t.fields[i])
  {
    if i < n - 1 {
      FormedField(t, n - 1, i);
    }
  }

  lemma {:induction false} FormedCase(t: Ty, n: nat, i: nat)
    requires t.Cases? && n <= |t.cases| && i < n && FormedCases(t, n) && t.cases[i].Some?
    ensures Formed(t.cases[i].value)
  {
    if i < n - 1 {
      FormedCase(t, n - 1, i);
    }
  }

  // ---------------------------------------------------------------- placement

  /** `AlignmentBound`: every field is aligned at most as strictly as the whole. */
  lemma {:induction false} FieldAlignmentBound(t: Ty, ptr: Pointer, n: nat, i: nat)
    requires t.Fields? && i < n <= |t.fields|
    ensures Alignment(t.fields[i], ptr) <= FieldAlignment(t, ptr, n)
  {
    hide AlignUp;
    if i < n - 1 {
      FieldAlignmentBound(t, ptr, n - 1, i);
    }
  }

  lemma {:induction false} CaseBound(t: Ty, ptr: Pointer, n: nat, i: nat)
    requires t.Cases? && i < n <= |t.cases| && t.cases[i].Some?
    ensures Alignment(t.cases[i].value, ptr) <= CaseAlignment(t, ptr, n)
    ensures Size(t.cases[i].value, ptr) <= CaseSize(t, ptr, n)
  {
    hide AlignUp;
    if i < n - 1 {
      CaseBound(t, ptr, n - 1, i);
    }
  }

  lemma {:induction false} FieldEndGrows(t: Ty, ptr: Pointer, m: nat, n: nat)
    requires t.Fields? && m <= n <= |t.fields|
    ensures FieldEnd(t, ptr, m) <= FieldEnd(t, ptr, n)
  {
    hide AlignUp;
    if m < n {
      FieldEndGrows(t, ptr, m, n - 1);
      AlignUpFacts(FieldEnd(t, ptr, n - 1), Alignment(t.fields[n - 1], ptr));
    }
  }

  /** Every field is aligned, starts after the fields before it, and lies inside
      the record. */
  lemma {:induction false} FieldPlacement(t: Ty, ptr: Pointer, i: nat)
    requires t.Fields? && i < |t.fields|
    ensures Alignment(t.fields[i], ptr) <= Alignment(t, ptr)
    ensures FieldOffset(t, ptr, i) % Alignment(t.fields[i], ptr) == 0
    ensures FieldEnd(t, ptr, i) <= FieldOffset(t, ptr, i)
    ensures FieldOffset(t, ptr, i) + Size(t.fields[i], ptr) == FieldEnd(t, ptr, i + 1) <= Size(t, ptr)
  {
    hide AlignUp;
    FieldAlignmentBound(t, ptr, |t.fields|, i);
    FieldEndGrows(t, ptr, i + 1, |t.fields|);
    AlignUpFacts(FieldEnd(t, ptr, i), Alignment(t.fields[i], ptr));
    AlignUpFacts(FieldEnd(t, ptr, |t.fields|), Alignment(t, ptr));
  }

  lemma {:induction false} FieldsDisjoint(t: Ty, ptr: Pointer, i: nat, j: nat)
    requires t.Fields? && i < j < |t.fields|
    ensures FieldOffset(t, ptr, i) + Size(t.fields[i], ptr) <= FieldOffset(t, ptr, j)
  {
    hide AlignUp;
    FieldPlacement(t, ptr, i);
    FieldPlacement(t, ptr, j);
    FieldEndGrows(t, ptr, i + 1, j);
  }

  /** Every payload is aligned, starts after the discriminant, and lies inside
      the variant. */
  lemma {:induction false} PayloadPlacement(t: Ty, ptr: Pointer, i: nat)
    requires t.Cases? && i < |t.cases|
    ensures LabelWidth(|t.cases|) <= PayloadOffset(t, ptr) <= Size(t, ptr)
    ensures t.cases[i].Some? ==>
              var payload := t.cases[i].value;
              && Alignment(payload, ptr) <= CaseAlignment(t, ptr, |t.cases|) <= Alignment(t, ptr)
              && PayloadOffset(t, ptr) % Alignment(payload, ptr) == 0
              && PayloadOffset(t, ptr) + Size(payload, ptr) <= Size(t, ptr)
  {
    hide AlignUp;
    var n := |t.cases|;
    AlignUpFacts(LabelWidth(n), CaseAlignment(t, ptr, n));
    AlignUpFacts(PayloadOffset(t, ptr) + CaseSize(t, ptr, n), Alignment(t, ptr));
    if t.cases[i].Some? {
      CaseBound(t, ptr, n, i);
      Divides(PayloadOffset(t, ptr), Alignment(t.cases[i].value, ptr), CaseAlignment(t, ptr, n));
    }
  }

  lemma {:induction false} FirstFieldCounts(t: Ty, ptr: Pointer)
    requires t.Fields? && t.fields != []
    ensures Size(t.fields[0], ptr) <= FieldEnd(t, ptr, |t.fields|)
  {
    FieldEndGrows(t, ptr, 1, |t.fields|);
    assert FieldEnd(t, ptr, 1) == AlignUp(0, Alignment(t.fields[0], ptr)) + Size(t.fields[0], ptr);
  }

  lemma {:induction false} RecordSize(t: Ty, ptr: Pointer)
    requires t.Fields? && t.fields != [] && Size(t.fields[0], ptr) > 0
    ensures Size(t, ptr) > 0 && Size(t, ptr) % Alignment(t, ptr) == 0
  {
    FirstFieldCounts(t, ptr);
    AlignUpFacts(FieldEnd(t, ptr, |t.fields|), Alignment(t, ptr));
    hide AlignUp, FieldEnd, Alignment;
  }

  lemma {:induction false} VariantSize(t: Ty, ptr: Pointer)
    requires t.Cases? && t.cases != []
    ensures Size(t, ptr) > 0 && Size(t, ptr) % Alignment(t, ptr) == 0
  {
    AlignUpFacts(LabelWidth(|t.cases|), CaseAlignment(t, ptr, |t.cases|));
    AlignUpFacts(PayloadOffset(t, ptr) + CaseSize(t, ptr, |t.cases|), Alignment(t, ptr));
    hide AlignUp, CaseSize, CaseAlignment, Alignment;
  }

  /** Sizes are positive multiples of the alignment. */
  lemma {:induction false} SizeFacts(t: Ty, ptr: Pointer)
    requires Formed(t)
    ensures Size(t, ptr) > 0 && Size(t, ptr) % Alignment(t, ptr) == 0
    decreases t
  {
    match t
    case Fields(_, fields) =>
      FormedField(t, |fields|, 0);
      SizeFacts(fields[0], ptr);
      hide Size, Alignment;
      RecordSize(t, ptr);
    case Cases(_, cases) =>
      hide Size, Alignment;
      VariantSize(t, ptr);
    case _ =>
      hide AlignUp;
  }

  // ---------------------------------------------------------------- the absolute walk

  /** The cursor of the lift and lower loops after `n` fields. */
  function Walk(t: Ty, ptr: Pointer, address: nat, n: nat): (c: nat)
    requires t.Fields? && n <= |t.fields|
    decreases n
  {
    if n == 0 then address
    else AlignUp(Walk(t, ptr, address, n - 1), Alignment(t.fields[n - 1], ptr)) + Size(t.fields[n - 1], ptr)
  }

  /** Walking absolute addresses from an aligned base visits the layout's offsets. */
  lemma {:induction false} WalkLands(t: Ty, ptr: Pointer, address: nat, n: nat)
    requires t.Fields? && n <= |t.fields| && address % Alignment(t, ptr) == 0
    ensures Walk(t, ptr, address, n) == address + FieldEnd(t, ptr, n)
    ensures n < |t.fields| ==>
              AlignUp(Walk(t, ptr, address, n), Alignment(t.fields[n], ptr)) == address + FieldOffset(t, ptr, n)
    decreases n
  {
    hide AlignUp;
    if n > 0 {
      WalkLands(t, ptr, address, n - 1);
    }
    if n < |t.fields| {
      FieldPlacement(t, ptr, n);
      Divides(address, Alignment(t.fields[n], ptr), Alignment(t, ptr));
      AlignAbsolute(address, FieldEnd(t, ptr, n), Alignment(t.fields[n], ptr));
    }
  }

  /** So does aligning the address behind an absolute discriminant. */
  lemma {:induction false} PayloadLands(t: Ty, ptr: Pointer, address: nat)
    requires t.Cases? && t.cases != [] && address % Alignment(t, ptr) == 0
    ensures AlignUp(address + LabelWidth(|t.cases|), CaseAlignment(t, ptr, |t.cases|)) ==
              address + PayloadOffset(t, ptr)
  {
    hide AlignUp;
    Divides(address, CaseAlignment(t, ptr, |t.cases|), Alignment(t, ptr));
    AlignAbsolute(address, LabelWidth(|t.cases|), CaseAlignment(t, ptr, |t.cases|));
  }

  // ---------------------------------------------------------------- the computed layout is the specified one

  /** What layout needs of a type at a recursion depth. */
  predicate Sized(t: Ty, ptr: Pointer, depth: nat) {
    Formed(t) && depth + Nesting(t) <= MAX_DEPTH && Size(t, ptr) <= MAX64
  }

  lemma {:induction false} NestingBound(t: Ty, n: nat, depth: nat)
    requires t.Fields? && n <= |t.fields|
    ensures depth + FieldsNesting(t, n) <= MAX_DEPTH <==> depth <= MAX_DEPTH && forall i :: 0 <= i < n ==>
              depth + Nesting(t.fields[i]) <= MAX_DEPTH
    ensures FormedFields(t, n) <==> forall i :: 0 <= i < n ==> Formed(t.fields[i])
  {
    if n > 0 {
      NestingBound(t, n - 1, depth);
    }
  }

  lemma {:induction false} CaseNestingBound(t: Ty, n: nat, depth: nat)
    requires t.Cases? && n <= |t.cases|
    ensures depth + CasesNesting(t, n) <= MAX_DEPTH <==>
            depth <= MAX_DEPTH && forall i :: 0 <= i < n && t.cases[i].Some? ==>
              depth + Nesting(t.cases[i].value) <= MAX_DEPTH
    ensures FormedCases(t, n) <==> forall i :: 0 <= i < n && t.cases[i].Some? ==> Formed(t.cases[i].value)
  {
    if n > 0 {
      CaseNestingBound(t, n - 1, depth);
    }
  }

  predicate SizedFields(t: Ty, ptr: Pointer, depth: nat, i: nat)
    requires t.Fields?
  {
    forall j :: i <= j < |t.fields| ==> Sized(t.fields[j], ptr, depth + 1)
  }

  lemma {:induction false} FieldsLayoutDone(t: Ty, ptr: Pointer, depth: nat)
    requires t.Fields? && depth < MAX_DEPTH
    ensures var r :=
              FieldsLayout(t, ptr, depth, |t.fields|, FieldAlignment(t, ptr, |t.fields|), FieldEnd(t, ptr, |t.fields|));
            && (r.Good? <==> Size(t, ptr) <= MAX64) && (r.Good? ==> r.v == Layout(Alignment(t, ptr), Size(t, ptr)))
  {
    AlignUpFacts(FieldEnd(t, ptr, |t.fields|), Alignment(t, ptr));
    hide AlignUp, FieldAlignment, FieldEnd;
  }

  /** One turn of the loop: it stops early only if the record is too large. */
  lemma {:induction false} FieldsLayoutTurn(t: Ty, ptr: Pointer, depth: nat, i: nat)
    requires t.Fields? && i < |t.fields| && depth < MAX_DEPTH
    requires var child := LayoutOf(t.fields[i], ptr, depth + 1);
             child.Good? ==> child.v == Layout(Alignment(t.fields[i], ptr), Size(t.fields[i], ptr))
    requires FieldOffset(t, ptr, i) + Size(t.fields[i], ptr) <= Size(t, ptr)
    ensures var r := FieldsLayout(t, ptr, depth, i, FieldAlignment(t, ptr, i), FieldEnd(t, ptr, i));
            if LayoutOf(t.fields[i], ptr, depth + 1).Bad? then r.Bad?
            else
              || r == FieldsLayout(t, ptr, depth, i + 1, FieldAlignment(t, ptr, i + 1), FieldEnd(t, ptr, i + 1))
              || (r.Bad? && Size(t, ptr) > MAX64)
  {
    hide AlignUp, Alignment, Size, LayoutOf;
  }

  lemma {:induction false} FieldsLayoutExact(t: Ty, ptr: Pointer, depth: nat, i: nat)
    requires t.Fields? && i <= |t.fields| && depth < MAX_DEPTH
    ensures var r := FieldsLayout(t, ptr, depth, i, FieldAlignment(t, ptr, i), FieldEnd(t, ptr, i));
            && (r.Good? <==> SizedFields(t, ptr, depth, i) && Size(t, ptr) <= MAX64)
            && (r.Good? ==> r.v == Layout(Alignment(t, ptr), Size(t, ptr)))
    decreases t, |t.fields| - i
  {
    hide AlignUp, Alignment, Size, LayoutOf, FieldsLayout, FieldAlignment, FieldEnd, FieldOffset, Sized;
    if i < |t.fields| {
      FieldsLayoutExact(t, ptr, depth, i + 1);
      LayoutExact(t.fields[i], ptr, depth + 1);
      FieldPlacement(t, ptr, i);
      FieldsLayoutTurn(t, ptr, depth, i);
    } else {
      FieldsLayoutDone(t, ptr, depth);
    }
  }

  predicate SizedCases(t: Ty, ptr: Pointer, depth: nat, i: nat)
    requires t.Cases?
  {
    forall j :: i <= j < |t.cases| && t.cases[j].Some? ==> Sized(t.cases[j].value, ptr, depth + 1)
  }

  lemma {:induction false} CasesLayoutDone(t: Ty, ptr: Pointer, depth: nat)
    requires t.Cases? && t.cases != [] && depth < MAX_DEPTH
    ensures var r :=
              CasesLayout(t, ptr, depth, |t.cases|, CaseAlignment(t, ptr, |t.cases|), CaseSize(t, ptr, |t.cases|));
            && (r.Good? <==> Size(t, ptr) <= MAX64) && (r.Good? ==> r.v == Layout(Alignment(t, ptr), Size(t, ptr)))
  {
    hide AlignUp, CaseAlignment, CaseSize;
  }

  /** One turn of the loop. */
  lemma {:induction false} CasesLayoutTurn(t: Ty, ptr: Pointer, depth: nat, i: nat)
    requires t.Cases? && i < |t.cases| && depth < MAX_DEPTH
    requires t.cases[i].Some? ==>
               var child := LayoutOf(t.cases[i].value, ptr, depth + 1);
               child.Good? ==> child.v == Layout(Alignment(t.cases[i].value, ptr), Size(t.cases[i].value, ptr))
    ensures var r := CasesLayout(t, ptr, depth, i, CaseAlignment(t, ptr, i), CaseSize(t, ptr, i));
            if t.cases[i].Some? && LayoutOf(t.cases[i].value, ptr, depth + 1).Bad? then r.Bad?
            else r == CasesLayout(t, ptr, depth, i + 1, CaseAlignment(t, ptr, i + 1), CaseSize(t, ptr, i + 1))
  {
    hide AlignUp, Alignment, Size, LayoutOf;
  }

  lemma {:induction false} CasesLayoutExact(t: Ty, ptr: Pointer, depth: nat, i: nat)
    requires t.Cases? && t.cases != [] && i <= |t.cases| && depth < MAX_DEPTH
    ensures var r := CasesLayout(t, ptr, depth, i, CaseAlignment(t, ptr, i), CaseSize(t, ptr, i));
            && (r.Good? <==> SizedCases(t, ptr, depth, i) && Size(t, ptr) <= MAX64)
            && (r.Good? ==> r.v == Layout(Alignment(t, ptr), Size(t, ptr)))
    decreases t, |t.cases| - i
  {
    hide AlignUp, Alignment, Size, LayoutOf, CasesLayout, CaseAlignment, CaseSize, Sized;
    if i < |t.cases| {
      CasesLayoutExact(t, ptr, depth, i + 1);
      if t.cases[i].Some? {
        LayoutExact(t.cases[i].value, ptr, depth + 1);
      }
      CasesLayoutTurn(t, ptr, depth, i);
    } else {
      CasesLayoutDone(t, ptr, depth);
    }
  }

  lemma {:induction false} FieldsFit(t: Ty, ptr: Pointer, depth: nat)
    requires t.Fields? && t.fields != [] && depth < MAX_DEPTH
    ensures Sized(t, ptr, depth) <==> SizedFields(t, ptr, depth, 0) && Size(t, ptr) <= MAX64
  {
    hide AlignUp, Size;
    NestingBound(t, |t.fields|, depth + 1);
    forall j | 0 <= j < |t.fields|
      ensures Size(t.fields[j], ptr) <= Size(t, ptr)
    {
      FieldPlacement(t, ptr, j);
    }
  }

  lemma {:induction false} CasesFit(t: Ty, ptr: Pointer, depth: nat)
    requires t.Cases? && t.cases != [] && depth < MAX_DEPTH
    ensures Sized(t, ptr, depth) <==> SizedCases(t, ptr, depth, 0) && Size(t, ptr) <= MAX64
  {
    hide AlignUp, Size;
    CaseNestingBound(t, |t.cases|, depth + 1);
    forall j | 0 <= j < |t.cases| && t.cases[j].Some?
      ensures Size(t.cases[j].value, ptr) <= Size(t, ptr)
    {
      PayloadPlacement(t, ptr, j);
    }
  }

  /** Layout succeeds exactly on well-formed types within the recursion bound
      whose size fits 64 bits, and then it is the Canonical ABI's. */
  lemma {:induction false} LayoutExact(t: Ty, ptr: Pointer, depth: nat)
    ensures LayoutOf(t, ptr, depth).Good? <==> Sized(t, ptr, depth)
    ensures LayoutOf(t, ptr, depth).Good? ==> LayoutOf(t, ptr, depth).v == Layout(Alignment(t, ptr), Size(t, ptr))
    decreases t, Arity(t) + 1
  {
    hide AlignUp;
    if depth >= MAX_DEPTH {
      assert Nesting(t) >= 1;
    } else if t.Fields? && t.fields != [] {
      hide Alignment, Size, Sized, FieldsLayout;
      FieldsLayoutExact(t, ptr, depth, 0);
      FieldsFit(t, ptr, depth);
    } else if t.Cases? && t.cases != [] {
      hide Alignment, Size, Sized, CasesLayout;
      CasesLayoutExact(t, ptr, depth, 0);
      CasesFit(t, ptr, depth);
    }
  }
}
