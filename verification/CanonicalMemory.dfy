/**
  Lowering component values into linear memory and lifting them back
  (src/component_canonical.c; "Storing" and "Loading" of the Component Model
  Canonical ABI).
 */
module CanonicalMemory {
  import opened Common
  import opened Bytes
  import opened CanonicalLayout

  type U32 = n: nat | n <= MAX32

  // ---------------------------------------------------------------- values

  /** A component value. Floats are their bit patterns, strings their bytes, and
      handles the numbers that the resource and endpoint codecs exchange. */
  datatype Val =
    | Num(kind: ScalarKind, n: int)
    | Text(text: seq<Byte>)
    | Items(items: seq<Val>)
    | Members(record: bool, members: seq<Val>)
    | Case(family: CaseKind, index: U32, payload: Option<Val>)
    | Label(choice: U32)
    | FlagSet(bits: U32)
    | HandleOf(handle: U32)

  predicate Signed(k: ScalarKind) {
    k in {S8, S16, S32, S64}
  }

  predicate UnicodeScalar(n: int) {
    0 <= n <= 0x10ffff && !(0xd800 <= n <= 0xdfff)
  }

  /** The numbers that a C field of this kind can hold. */
  predicate Fits(k: ScalarKind, n: int) {
    if k == Bool then 0 <= n <= 1
    else if Signed(k) then -(Pow256(Width(k)) / 2) <= n < Pow256(Width(k)) / 2
    else 0 <= n < Pow256(Width(k))
  }

  /** Two's complement of the kind's width. */
  function ToBits(k: ScalarKind, n: int): (b: nat)
    requires Fits(k, n)
    ensures b < Pow256(Width(k))
  {
    if n < 0 then n + Pow256(Width(k)) else n
  }

  function FromBits(k: ScalarKind, b: nat): (r: Result<int>) {
    if k == Bool then (if b > 1 then Bad(Trapped) else Good(b))
    else if k == Char then (if UnicodeScalar(b) then Good(b) else Bad(Trapped))
    else if Signed(k) && b >= Pow256(Width(k)) / 2 then Good(b - Pow256(Width(k)))
    else Good(b)
  }

  lemma {:induction false} BitsRoundTrip(k: ScalarKind, n: int)
    requires Fits(k, n) && (k == Char ==> UnicodeScalar(n))
    ensures FromBits(k, ToBits(k, n)) == Good(n)
  {
  }

  // ---------------------------------------------------------------- guest memory

  /** One answer of the guest's allocator: it may grow the memory first. */
  datatype Answer = Refused(code: nat) | At(pointer: nat, grown: nat)

  /** Guest memory. `used` are the addresses that are spoken for, and `answers`
      what the guest's allocator is going to say. */
  datatype Heap = Heap(bytes: seq<Byte>, used: set<nat>, answers: seq<Answer>)

  function Range(a: nat, n: nat): (s: set<nat>)
    ensures forall x :: x in s <==> a <= x < a + n
  {
    if n == 0 then {} else Range(a, n - 1) + {a + n - 1}
  }

  function Zeros(n: nat): (s: seq<Byte>)
    ensures |s| == n
  {
    seq(n, _ => 0)
  }

  datatype Allocation = Allocation(pointer: nat, heap: Heap)

  /** `guest_allocate`. The guest keeps its contract: the region it returns is
      inside the memory and not in use. */
  function Allocate(h: Heap, size: nat): (r: Result<Allocation>) {
    if size == 0 then Good(Allocation(0, h))
    else if h.answers == [] then Bad(Unsupported)
    else if h.answers[0].Refused? then Bad(Failed(h.answers[0].code))
    else
      var p, bytes := h.answers[0].pointer, h.bytes + Zeros(h.answers[0].grown);
      if |bytes| > MAX64 then Bad(OutOfMemory)
      else if p + size > |bytes| || !(Range(p, size) !! h.used) then Bad(Trapped)
      else Good(Allocation(p, Heap(bytes, h.used + Range(p, size), h.answers[1..])))
  }

  function Write(h: Heap, address: nat, data: seq<Byte>): (r: Result<Heap>)
    ensures r.Good? ==> |r.v.bytes| == |h.bytes| && r.v.used == h.used && r.v.answers == h.answers
  {
    if address + |data| > |h.bytes| then Bad(Trapped)
    else Good(h.(bytes := h.bytes[..address] + data + h.bytes[address + |data|..]))
  }

  function Read(m: seq<Byte>, address: nat, width: nat): (r: Result<seq<Byte>>) {
    if address + width > |m| then Bad(Trapped) else Good(m[address..address + width])
  }

  function ReadNumber(m: seq<Byte>, address: nat, width: nat): (r: Result<nat>)
    ensures r.Good? && width <= 4 ==> r.v <= MAX32
  {
    var b := Read(m, address, width);
    if b.Bad? then Bad(b.status)
    else
      LeBound(b.v);
      Good(FromLe(b.v))
  }

  lemma {:induction false} LeBound(s: seq<Byte>)
    ensures FromLe(s) < Pow256(|s|)
    ensures |s| <= 4 ==> FromLe(s) <= MAX32
    decreases |s|
  {
    if s != [] {
      LeBound(s[1..]);
    }
    assert Pow256(0) == 1 && Pow256(1) == 256 && Pow256(2) == 65536 && Pow256(3) == 16777216 && Pow256(4) == MAX32 + 1;
  }

  /** `write_pointer`: a 32-bit memory cannot hold a larger number. */
  function WritePointer(h: Heap, ptr: Pointer, address: nat, value: nat): (r: Result<Heap>) {
    if value > (if ptr == 4 then MAX32 else MAX64) then Bad(Trapped) else Write(h, address, Le(value, ptr))
  }

  const MAX_LIST_BYTES := 0xfff_ffff

  // ---------------------------------------------------------------- lowering

  function LowerNumber(h: Heap, address: nat, width: nat, value: nat): Result<Heap> {
    Write(h, address, Le(value, width))
  }

  function Pow2(n: nat): (p: nat)
    ensures p > 0
  {
    if n == 0 then 1 else 2 * Pow2(n - 1)
  }

  /** `variant_payload_alignment`: the loop over the cases from `i` on. */
  function PayloadAlignment(t: Ty, ptr: Pointer, i: nat, alignment: nat): (r: Result<nat>)
    requires t.Cases? && i <= |t.cases|
    decreases |t.cases| - i
  {
    if i == |t.cases| then Good(alignment)
    else if t.cases[i].None? then PayloadAlignment(t, ptr, i + 1, alignment)
    else
      var layout := LayoutOf(t.cases[i].value, ptr, 0);
      if layout.Bad? then Bad(layout.status) else PayloadAlignment(t, ptr, i + 1, Max(alignment, layout.v.alignment))
  }

  /** Where the payload behind a discriminant at `address` goes. */
  function PayloadPlace(t: Ty, ptr: Pointer, address: nat): (r: Result<nat>)
    requires t.Cases? && t.cases != []
  {
    var alignment := PayloadAlignment(t, ptr, 0, 1);
    if alignment.Bad? then alignment
    else
      var tagEnd := address + LabelWidth(|t.cases|);
      if tagEnd > MAX64 || alignment.v == 0 || AlignUp(tagEnd, alignment.v) > MAX64 then Bad(Trapped)
      else Good(AlignUp(tagEnd, alignment.v))
  }

  /** Stores a (pointer, length) pair. */
  function LowerPair(h: Heap, ptr: Pointer, address: nat, pointer: nat, length: nat): Result<Heap> {
    var first := WritePointer(h, ptr, address, pointer);
    if first.Bad? then first
    else if address + ptr > MAX64 then Bad(Trapped)
    else WritePointer(first.v, ptr, address + ptr, length)
  }

  function LowerText(h: Heap, v: Val): (r: Result<Allocation>) {
    if !v.Text? then Bad(TypeMismatch)
    else if |v.text| > MAX_LIST_BYTES then Bad(InvalidArgument)
    else
      var a := Allocate(h, |v.text|);
      if a.Bad? then a
      else
        var w := Write(a.v.heap, a.v.pointer, v.text);
        if w.Bad? then Bad(w.status) else Good(Allocation(a.v.pointer, w.v))
  }

  function LowerAt(h: Heap, t: Ty, ptr: Pointer, address: nat, depth: nat, v: Val): (r: Result<Heap>)
    decreases t, Arity(t) + 2
  {
    if depth >= MAX_DEPTH then Bad(Trapped)
    else
      match t
      case Scalar(k) =>
        if !v.Num? || v.kind != k || !Fits(k, v.n) then Bad(TypeMismatch)
        else if k == Char && !UnicodeScalar(v.n) then Bad(InvalidArgument)
        else LowerNumber(h, address, Width(k), ToBits(k, v.n))
      case Str =>
        var text := LowerText(h, v);
        if text.Bad? then Bad(text.status) else LowerPair(text.v.heap, ptr, address, text.v.pointer, |v.text|)
      case List(_) =>
        var list := LowerList(h, t, ptr, depth, v);
        if list.Bad? then Bad(list.status) else LowerPair(list.v.heap, ptr, address, list.v.pointer, |v.items|)
      case Fields(record, fields) =>
        if !v.Members? || v.record != record then Bad(TypeMismatch)
        else if fields == [] then Bad(MalformedModule)
        else if |v.members| != |fields| then Bad(TypeMismatch)
        else LowerFields(h, t, ptr, address, depth, 0, v.members)
      case Cases(family, cases) =>
        if !v.Case? || v.family != family || cases == [] || v.index >= |cases| then Bad(TypeMismatch)
        else if cases[v.index].Some? != v.payload.Some? then Bad(TypeMismatch)
        else
          var width := LabelWidth(|cases|);
          var tagged := LowerNumber(h, address, width, v.index);
          if tagged.Bad? || v.payload.None? then tagged
          else
            var place := PayloadPlace(t, ptr, address);
            if place.Bad? then Bad(place.status)
            else LowerAt(tagged.v, cases[v.index].value, ptr, place.v, depth + 1, v.payload.value)
      case Enum(count) =>
        if !v.Label? || v.choice >= count then Bad(TypeMismatch)
        else LowerNumber(h, address, LabelWidth(count), v.choice)
      case Flags(count) =>
        if !v.FlagSet? || count == 0 || count > 32 || v.bits >= Pow2(count) then Bad(TypeMismatch)
        else LowerNumber(h, address, FlagsWidth(count), v.bits)
      case Handle(_) =>
        if !v.HandleOf? then Bad(TypeMismatch) else LowerNumber(h, address, 4, v.handle)
  }

  /** The loop over fields, from `i` on, with the address reached so far. */
  function LowerFields(h: Heap, t: Ty, ptr: Pointer, cursor: nat, depth: nat, i: nat, vs: seq<Val>): (r: Result<Heap>)
    requires t.Fields? && |vs| == |t.fields| && i <= |vs|
    decreases t, |vs| - i
  {
    if i == |vs| then Good(h)
    else
      var layout := LayoutOf(t.fields[i], ptr, 0);
      if layout.Bad? then Bad(layout.status)
      else if layout.v.alignment == 0 || AlignUp(cursor, layout.v.alignment) + layout.v.size > MAX64 then Bad(Trapped)
      else
        var place := AlignUp(cursor, layout.v.alignment);
        var next := LowerAt(h, t.fields[i], ptr, place, depth + 1, vs[i]);
        if next.Bad? then next else LowerFields(next.v, t, ptr, place + layout.v.size, depth, i + 1, vs)
  }

  function LowerList(h: Heap, t: Ty, ptr: Pointer, depth: nat, v: Val): (r: Result<Allocation>)
    requires t.List?
    decreases t, 1
  {
    if !v.Items? then Bad(TypeMismatch)
    else
      var layout := LayoutOf(t.element, ptr, 0);
      if layout.Bad? then Bad(layout.status)
      else if |v.items| * layout.v.size > MAX_LIST_BYTES then Bad(InvalidArgument)
      else
        var a := Allocate(h, |v.items| * layout.v.size);
        if a.Bad? then a
        else if layout.v.alignment == 0 || a.v.pointer % layout.v.alignment != 0 then Bad(Trapped)
        else
          var done := LowerItems(a.v.heap, t, ptr, a.v.pointer, layout.v.size, depth, v.items);
          if done.Bad? then Bad(done.status) else Good(Allocation(a.v.pointer, done.v))
  }

  /** Stores the items one after the other. */
  function LowerItems(h: Heap, t: Ty, ptr: Pointer, base: nat, stride: nat, depth: nat, vs: seq<Val>): (r: Result<Heap>)
    requires t.List?
    decreases t, 0, |vs|
  {
    if vs == [] then Good(h)
    else
      var next := LowerAt(h, t.element, ptr, base, depth + 1, vs[0]);
      if next.Bad? then next else LowerItems(next.v, t, ptr, base + stride, stride, depth, vs[1..])
  }

  // ---------------------------------------------------------------- lifting

  function LiftAt(m: seq<Byte>, t: Ty, ptr: Pointer, address: nat, depth: nat): (r: Result<Val>)
    decreases t, Arity(t) + 2
  {
    if depth >= MAX_DEPTH then Bad(Trapped)
    else
      match t
      case Scalar(k) =>
        var b := ReadNumber(m, address, Width(k));
        if b.Bad? then Bad(b.status)
        else
          var n := FromBits(k, b.v);
          if n.Bad? then Bad(n.status) else Good(Num(k, n.v))
      case Str =>
        var pair := LiftPair(m, ptr, address);
        if pair.Bad? then Bad(pair.status) else LiftText(m, pair.v.0, pair.v.1)
      case List(_) =>
        var pair := LiftPair(m, ptr, address);
        if pair.Bad? then Bad(pair.status) else LiftList(m, t, ptr, pair.v.0, pair.v.1, depth)
      case Fields(record, fields) =>
        if fields == [] then Bad(MalformedModule)
        else
          var vs := LiftFields(m, t, ptr, address, depth, 0);
          if vs.Bad? then Bad(vs.status) else Good(Members(record, vs.v))
      case Cases(family, cases) =>
        if cases == [] then Bad(MalformedModule)
        else
          var width := LabelWidth(|cases|);
          var tag := ReadNumber(m, address, width);
          if tag.Bad? then Bad(tag.status)
          else if tag.v >= |cases| then Bad(Trapped)
          else
            var place := PayloadPlace(t, ptr, address);
            if place.Bad? then Bad(place.status)
            else if cases[tag.v].None? then Good(Case(family, tag.v, None))
            else
              var payload := LiftAt(m, cases[tag.v].value, ptr, place.v, depth + 1);
              if payload.Bad? then payload else Good(Case(family, tag.v, Some(payload.v)))
      case Enum(count) =>
        if count == 0 then Bad(MalformedModule)
        else
          var b := ReadNumber(m, address, LabelWidth(count));
          if b.Bad? then Bad(b.status) else if b.v >= count then Bad(Trapped) else Good(Label(b.v))
      case Flags(count) =>
        if count == 0 || count > 32 then Bad(MalformedModule)
        else
          var b := ReadNumber(m, address, FlagsWidth(count));
          if b.Bad? then Bad(b.status) else if b.v >= Pow2(count) then Bad(Trapped) else Good(FlagSet(b.v))
      case Handle(_) =>
        var b := ReadNumber(m, address, 4);
        if b.Bad? then Bad(b.status) else Good(HandleOf(b.v))
  }

  function LiftPair(m: seq<Byte>, ptr: Pointer, address: nat): (r: Result<(nat, nat)>) {
    var pointer := ReadNumber(m, address, ptr);
    if pointer.Bad? then Bad(pointer.status)
    else if address + ptr > MAX64 then Bad(Trapped)
    else
      var length := ReadNumber(m, address + ptr, ptr);
      if length.Bad? then Bad(length.status) else Good((pointer.v, length.v))
  }

  function LiftText(m: seq<Byte>, pointer: nat, length: nat): (r: Result<Val>) {
    if length > MAX_LIST_BYTES then Bad(Trapped)
    else
      var b := Read(m, pointer, length);
      if b.Bad? then Bad(b.status) else Good(Text(b.v))
  }

  function LiftFields(m: seq<Byte>, t: Ty, ptr: Pointer, cursor: nat, depth: nat, i: nat): (r: Result<seq<Val>>)
    requires t.Fields? && i <= |t.fields|
    decreases t, |t.fields| - i
  {
    if i == |t.fields| then Good([])
    else
      var layout := LayoutOf(t.fields[i], ptr, 0);
      if layout.Bad? then Bad(layout.status)
      else if layout.v.alignment == 0 || AlignUp(cursor, layout.v.alignment) + layout.v.size > MAX64 then Bad(Trapped)
      else
        var place := AlignUp(cursor, layout.v.alignment);
        var first := LiftAt(m, t.fields[i], ptr, place, depth + 1);
        if first.Bad? then Bad(first.status)
        else
          var rest := LiftFields(m, t, ptr, place + layout.v.size, depth, i + 1);
          if rest.Bad? then rest else Good([first.v] + rest.v)
  }

  function LiftList(m: seq<Byte>, t: Ty, ptr: Pointer, pointer: nat, count: nat, depth: nat): (r: Result<Val>)
    requires t.List?
    decreases t, 1
  {
    var layout := LayoutOf(t.element, ptr, 0);
    if layout.Bad? then Bad(layout.status)
    else if layout.v.size == 0 then Bad(MalformedModule)
    else if count * layout.v.size > MAX_LIST_BYTES then Bad(Trapped)
    else if layout.v.alignment == 0 || pointer % layout.v.alignment != 0 then Bad(Trapped)
    else if pointer + count * layout.v.size > |m| then Bad(Trapped)
    else
      var vs := LiftItems(m, t, ptr, pointer, layout.v.size, depth, count);
      if vs.Bad? then Bad(vs.status) else Good(Items(vs.v))
  }

  function LiftItems(m: seq<Byte>, t: Ty, ptr: Pointer, base: nat, stride: nat, depth: nat,
      count: nat): (r: Result<seq<Val>>)
    requires t.List?
    decreases t, 0, count
  {
    if count == 0 then Good([])
    else
      var first := LiftAt(m, t.element, ptr, base, depth + 1);
      if first.Bad? then Bad(first.status)
      else
        var rest := LiftItems(m, t, ptr, base + stride, stride, depth, count - 1);
        if rest.Bad? then rest else Good([first.v] + rest.v)
  }
}
