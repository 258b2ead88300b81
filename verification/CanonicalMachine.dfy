/**
  The canonical ABI engine as the C code runs it: loops that accumulate offsets
  and carriers, stores into guest memory, and cells filled while lifting. Every
  method is proved to compute its counterpart in the value-level model.
 */
module CanonicalMachine {
  import opened Common
  import opened Bytes
  import opened CanonicalLayout
  import opened CanonicalFlatten
  import opened CanonicalMemory

  // ---------------------------------------------------------------- layout

  method ComputeLayout(t: Ty, ptr: Pointer, depth: nat) returns (status: Status, out: Layout)
    ensures LayoutOf(t, ptr, depth) == if status == Ok then Good(out) else Bad(status)
    decreases t, Arity(t) + 1
  {
    out := Layout(0, 0);
    if depth >= MAX_DEPTH {
      return Unsupported, out;
    }
    match t {
      case Scalar(k) => return Ok, Layout(Width(k), Width(k));
      case Str => return Ok, Layout(ptr, 2 * ptr);
      case List(_) => return Ok, Layout(ptr, 2 * ptr);
      case Fields(_, _) => status, out := ComputeFieldsLayout(t, ptr, depth);
      case Cases(_, _) => status, out := ComputeCasesLayout(t, ptr, depth);
      case Enum(count) =>
        if count == 0 {
          return MalformedModule, out;
        }
        return Ok, Layout(LabelWidth(count), LabelWidth(count));
      case Flags(count) =>
        if count == 0 || count > 32 {
          return MalformedModule, out;
        }
        return Ok, Layout(FlagsWidth(count), FlagsWidth(count));
      case Handle(_) => return Ok, Layout(4, 4);
    }
  }

  method ComputeFieldsLayout(t: Ty, ptr: Pointer, depth: nat) returns (status: Status, out: Layout)
    requires t.Fields? && depth < MAX_DEPTH
    ensures LayoutOf(t, ptr, depth) == if status == Ok then Good(out) else Bad(status)
    decreases t, Arity(t)
  {
    hide AlignUp;
    out := Layout(0, 0);
    if t.fields == [] {
      return MalformedModule, out;
    }
    var alignment: nat, offset: nat := 1, 0;
    var i := 0;
    while i < |t.fields|
      invariant 0 <= i <= |t.fields| && alignment > 0
      invariant LayoutOf(t, ptr, depth) == FieldsLayout(t, ptr, depth, i, alignment, offset)
    {
      var child;
      status, child := ComputeLayout(t.fields[i], ptr, depth + 1);
      if status != Ok {
        return;
      }
      if child.alignment == 0 {
        return Unsupported, out;
      }
      var aligned := AlignUp(offset, child.alignment);
      if aligned + child.size > MAX64 {
        return Unsupported, out;
      }
      if child.alignment > alignment {
        alignment := child.alignment;
      }
      offset := aligned + child.size;
      i := i + 1;
    }
    if AlignUp(offset, alignment) > MAX64 {
      return Unsupported, out;
    }
    return Ok, Layout(alignment, AlignUp(offset, alignment));
  }

  method ComputeCasesLayout(t: Ty, ptr: Pointer, depth: nat) returns (status: Status, out: Layout)
    requires t.Cases? && depth < MAX_DEPTH
    ensures LayoutOf(t, ptr, depth) == if status == Ok then Good(out) else Bad(status)
    decreases t, Arity(t)
  {
    hide AlignUp;
    out := Layout(0, 0);
    if t.cases == [] {
      return MalformedModule, out;
    }
    var width := LabelWidth(|t.cases|);
    var alignment: nat, size: nat := 1, 0;
    var i := 0;
    while i < |t.cases|
      invariant 0 <= i <= |t.cases| && alignment > 0
      invariant LayoutOf(t, ptr, depth) == CasesLayout(t, ptr, depth, i, alignment, size)
    {
      if t.cases[i].Some? {
        var child;
        status, child := ComputeLayout(t.cases[i].value, ptr, depth + 1);
        if status != Ok {
          return;
        }
        if child.alignment > alignment {
          alignment := child.alignment;
        }
        if child.size > size {
          size := child.size;
        }
      }
      i := i + 1;
    }
    var whole := if alignment > width then alignment else width;
    var total := AlignUp(AlignUp(width, alignment) + size, whole);
    if total > MAX64 {
      return Unsupported, out;
    }
    return Ok, Layout(whole, total);
  }

  /** The strictest alignment among the payloads, and the place behind the tag. */
  method ComputePayloadPlace(t: Ty, ptr: Pointer, address: nat) returns (status: Status, place: nat)
    requires t.Cases? && t.cases != []
    ensures PayloadPlace(t, ptr, address) == if status == Ok then Good(place) else Bad(status)
  {
    hide AlignUp, LayoutOf;
    place := 0;
    var alignment: nat := 1;
    var i := 0;
    while i < |t.cases|
      invariant 0 <= i <= |t.cases|
      invariant PayloadAlignment(t, ptr, 0, 1) == PayloadAlignment(t, ptr, i, alignment)
    {
      if t.cases[i].Some? {
        var layout;
        status, layout := ComputeLayout(t.cases[i].value, ptr, 0);
        if status != Ok {
          return;
        }
        if layout.alignment > alignment {
          alignment := layout.alignment;
        }
      }
      i := i + 1;
    }
    var tagEnd := address + LabelWidth(|t.cases|);
    if tagEnd > MAX64 || alignment == 0 || AlignUp(tagEnd, alignment) > MAX64 {
      return Trapped, 0;
    }
    return Ok, AlignUp(tagEnd, alignment);
  }

  // ---------------------------------------------------------------- flattening

  method AppendCapped(out: seq<Flat>, part: seq<Flat>) returns (r: seq<Flat>)
    requires |out| <= CAP
    ensures r == Append(out, part)
  {
    r := out;
    var i := 0;
    while i < |part| && |r| < CAP
      invariant 0 <= i <= |part| && i <= CAP - |out| && r == out + part[..i]
    {
      r := r + [part[i]];
      i := i + 1;
    }
  }

  /** Joins the carriers of one more case into those of the cases before. */
  method JoinPart(joined: seq<Flat>, part: seq<Flat>) returns (r: seq<Flat>)
    requires |joined| <= CAP
    ensures r == Cut(Merge(joined, part))
  {
    r := joined;
    var j := 0;
    while j < |part|
      invariant 0 <= j <= |part|
      invariant |r| == Max(|joined|, Min(j, CAP))
      invariant forall k :: 0 <= k < |r| ==>
                  r[k] == if k < |joined| && k < j then Join(joined[k], part[k])
                          else if k < |joined| then joined[k] else part[k]
    {
      if j < |r| {
        r := r[j := Join(r[j], part[j])];
      } else if |r| < CAP {
        r := r + [part[j]];
      }
      j := j + 1;
    }
  }

  method ComputeFlat(t: Ty, ptr: Pointer, depth: nat) returns (status: Status, out: seq<Flat>)
    ensures FlattenOf(t, ptr, depth) == if status == Ok then Good(out) else Bad(status)
    decreases t, Arity(t) + 1
  {
    out := [];
    if depth >= MAX_DEPTH {
      return Unsupported, out;
    }
    match t {
      case Scalar(k) => return Ok, [ScalarFlat(k)];
      case Str => return Ok, [PointerFlat(ptr), PointerFlat(ptr)];
      case List(_) => return Ok, [PointerFlat(ptr), PointerFlat(ptr)];
      case Fields(_, _) => status, out := ComputeFieldsFlat(t, ptr, depth);
      case Cases(_, _) => status, out := ComputeCasesFlat(t, ptr, depth);
      case Enum(count) =>
        if count == 0 {
          return MalformedModule, out;
        }
        return Ok, [I32];
      case Flags(count) =>
        if count == 0 || count > 32 {
          return MalformedModule, out;
        }
        return Ok, [I32];
      case Handle(_) => return Ok, [I32];
    }
  }

  method ComputeFieldsFlat(t: Ty, ptr: Pointer, depth: nat) returns (status: Status, out: seq<Flat>)
    requires t.Fields? && depth < MAX_DEPTH
    ensures FlattenOf(t, ptr, depth) == if status == Ok then Good(out) else Bad(status)
    decreases t, Arity(t)
  {
    hide Append;
    out := [];
    if t.fields == [] {
      return MalformedModule, out;
    }
    var i := 0;
    while i < |t.fields|
      invariant 0 <= i <= |t.fields| && |out| <= CAP
      invariant FlattenOf(t, ptr, depth) == FieldsFlat(t, ptr, depth, i, out)
    {
      var part;
      status, part := ComputeFlat(t.fields[i], ptr, depth + 1);
      if status != Ok {
        return;
      }
      out := AppendCapped(out, part);
      i := i + 1;
    }
    status := Ok;
  }

  method ComputeCasesFlat(t: Ty, ptr: Pointer, depth: nat) returns (status: Status, out: seq<Flat>)
    requires t.Cases? && depth < MAX_DEPTH
    ensures FlattenOf(t, ptr, depth) == if status == Ok then Good(out) else Bad(status)
    decreases t, Arity(t)
  {
    hide Append, Merge, Cut;
    out := [];
    if t.cases == [] {
      return MalformedModule, out;
    }
    var joined: seq<Flat> := [];
    var i := 0;
    while i < |t.cases|
      invariant 0 <= i <= |t.cases| && |joined| <= CAP
      invariant FlattenOf(t, ptr, depth) == CasesFlat(t, ptr, depth, i, joined)
    {
      if t.cases[i].Some? {
        var part;
        status, part := ComputeFlat(t.cases[i].value, ptr, depth + 1);
        if status != Ok {
          return;
        }
        joined := JoinPart(joined, part);
      }
      i := i + 1;
    }
    out := AppendCapped([I32], joined);
    status := Ok;
  }

  // ---------------------------------------------------------------- bytes

  /** `write_le`: the low bytes of `value`, least significant first. */
  method WriteLe(bytes: array<Byte>, width: nat, value: nat)
    requires width <= bytes.Length
    modifies bytes
    ensures bytes[..width] == Le(value, width) && bytes[width..] == old(bytes[width..])
  {
    var rest, i := value, 0;
    while i < width
      invariant 0 <= i <= width && rest >= 0
      invariant bytes[..i] + Le(rest, width - i) == Le(value, width)
      invariant bytes[width..] == old(bytes[width..])
    {
      ghost var before := bytes[..i];
      bytes[i] := rest % 256;
      assert bytes[..i + 1] == before + [rest % 256];
      assert Le(rest, width - i) == [rest % 256] + Le(rest / 256, width - (i + 1));
      rest := rest / 256;
      i := i + 1;
    }
  }

  /** `read_le`: Horner's rule from the most significant byte down. */
  method ReadLe(bytes: array<Byte>, width: nat) returns (value: nat)
    requires width <= bytes.Length
    ensures value == FromLe(bytes[..width])
  {
    value := 0;
    var i := width;
    while i > 0
      invariant 0 <= i <= width
      invariant value == FromLe(bytes[i..width])
    {
      i := i - 1;
      assert bytes[i..width] == [bytes[i]] + bytes[i + 1..width];
      value := bytes[i] + 256 * value;
    }
    assert bytes[0..width] == bytes[..width];
  }

  // ---------------------------------------------------------------- lowering in place

  /** Guest memory as one call sees it. A failed call may have stored some bytes. */
  class Guest {
    var bytes: seq<Byte>
    var used: set<nat>
    var answers: seq<Answer>

    ghost function View(): Heap
      reads this
    {
      Heap(bytes, used, answers)
    }

    /** A call that was to give `r` ended with `status`. */
    ghost predicate Became(r: Result<Heap>, status: Status)
      reads this
    {
      r == if status == Ok then Good(View()) else Bad(status)
    }

    method Store(address: nat, data: seq<Byte>) returns (status: Status)
      modifies `bytes
      ensures Became(Write(old(View()), address, data), status)
    {
      if address + |data| > |bytes| {
        return Trapped;
      }
      bytes := bytes[..address] + data + bytes[address + |data|..];
      return Ok;
    }

    /** The guest's own allocator. */
    method Reallocate(size: nat) returns (status: Status, pointer: nat)
      modifies this
      ensures Allocate(old(View()), size) == if status == Ok then Good(Allocation(pointer, View())) else Bad(status)
    {
      var r := Allocate(Heap(bytes, used, answers), size);
      if r.Bad? {
        return r.status, 0;
      }
      bytes, used, answers := r.v.heap.bytes, r.v.heap.used, r.v.heap.answers;
      return Ok, r.v.pointer;
    }

    method StorePointer(ptr: Pointer, address: nat, value: nat) returns (status: Status)
      modifies `bytes
      ensures Became(WritePointer(old(View()), ptr, address, value), status)
    {
      if value > (if ptr == 4 then MAX32 else MAX64) {
        return Trapped;
      }
      status := Store(address, Le(value, ptr));
    }

    method StorePair(ptr: Pointer, address: nat, pointer: nat, length: nat) returns (status: Status)
      modifies `bytes
      ensures Became(LowerPair(old(View()), ptr, address, pointer, length), status)
    {
      status := StorePointer(ptr, address, pointer);
      if status != Ok {
        return;
      }
      if address + ptr > MAX64 {
        return Trapped;
      }
      status := StorePointer(ptr, address + ptr, length);
    }

    method StoreText(v: Val) returns (status: Status, pointer: nat)
      modifies this
      ensures LowerText(old(View()), v) == if status == Ok then Good(Allocation(pointer, View())) else Bad(status)
    {
      hide Allocate;
      pointer := 0;
      if !v.Text? {
        return TypeMismatch, 0;
      }
      if |v.text| > MAX_LIST_BYTES {
        return InvalidArgument, 0;
      }
      status, pointer := Reallocate(|v.text|);
      if status != Ok {
        return;
      }
      status := Store(pointer, v.text);
    }

    method LowerInto(t: Ty, ptr: Pointer, address: nat, depth: nat, v: Val) returns (status: Status)
      modifies this
      ensures Became(LowerAt(old(View()), t, ptr, address, depth, v), status)
      decreases t, Arity(t) + 2
    {
      hide LowerText, LowerList, LowerFields, LowerPair, PayloadPlace, Write, Fits, ToBits, Pow2;
      if depth >= MAX_DEPTH {
        return Trapped;
      }
      match t {
        case Scalar(k) =>
          if !v.Num? || v.kind != k || !Fits(k, v.n) {
            return TypeMismatch;
          }
          if k == Char && !UnicodeScalar(v.n) {
            return InvalidArgument;
          }
          status := Store(address, Le(ToBits(k, v.n), Width(k)));
        case Str =>
          var pointer;
          status, pointer := StoreText(v);
          if status == Ok {
            assert v.Text? by {
              TextOnly(old(View()), v);
            }
            status := StorePair(ptr, address, pointer, |v.text|);
          }
        case List(_) =>
          var pointer;
          status, pointer := LowerItemsInto(t, ptr, depth, v);
          if status == Ok {
            status := StorePair(ptr, address, pointer, |v.items|);
          }
        case Fields(record, fields) =>
          if !v.Members? || v.record != record {
            return TypeMismatch;
          }
          if fields == [] {
            return MalformedModule;
          }
          if |v.members| != |fields| {
            return TypeMismatch;
          }
          status := LowerFieldsInto(t, ptr, address, depth, v.members);
        case Cases(family, cases) =>
          if !v.Case? || v.family != family || cases == [] || v.index >= |cases|
            || cases[v.index].Some? != v.payload.Some? {
            return TypeMismatch;
          }
          status := Store(address, Le(v.index, LabelWidth(|cases|)));
          if status == Ok && v.payload.Some? {
            var place;
            status, place := ComputePayloadPlace(t, ptr, address);
            if status != Ok {
              return;
            }
            status := LowerInto(cases[v.index].value, ptr, place, depth + 1, v.payload.value);
          }
        case Enum(count) =>
          if !v.Label? || v.choice >= count {
            return TypeMismatch;
          }
          status := Store(address, Le(v.choice, LabelWidth(count)));
        case Flags(count) =>
          if !v.FlagSet? || count == 0 || count > 32 || v.bits >= Pow2(count) {
            return TypeMismatch;
          }
          status := Store(address, Le(v.bits, FlagsWidth(count)));
        case Handle(_) =>
          if !v.HandleOf? {
            return TypeMismatch;
          }
          status := Store(address, Le(v.handle, 4));
      }
    }

    /** The field loop, with its absolute cursor. */
    method LowerFieldsInto(t: Ty, ptr: Pointer, address: nat, depth: nat, vs: seq<Val>) returns (status: Status)
      requires t.Fields? && |vs| == |t.fields|
      modifies this
      ensures Became(LowerFields(old(View()), t, ptr, address, depth, 0, vs), status)
      decreases t, Arity(t) + 1
    {
      hide AlignUp, LowerAt, LayoutOf;
      var cursor, i := address, 0;
      while i < |vs|
        invariant 0 <= i <= |vs| && cursor >= 0
        invariant LowerFields(old(View()), t, ptr, address, depth, 0, vs) ==
                    LowerFields(View(), t, ptr, cursor, depth, i, vs)
      {
        var layout;
        status, layout := ComputeLayout(t.fields[i], ptr, 0);
        if status != Ok {
          return;
        }
        if layout.alignment == 0 {
          return Trapped;
        }
        var aligned := AlignUp(cursor, layout.alignment);
        if aligned + layout.size > MAX64 {
          return Trapped;
        }
        status := LowerInto(t.fields[i], ptr, aligned, depth + 1, vs[i]);
        if status != Ok {
          return;
        }
        cursor := aligned + layout.size;
        i := i + 1;
      }
      status := Ok;
    }

    /** Allocates and fills the array of a list. */
    method LowerItemsInto(t: Ty, ptr: Pointer, depth: nat, v: Val) returns (status: Status, pointer: nat)
      requires t.List?
      modifies this
      ensures LowerList(old(View()), t, ptr, depth, v) ==
                if status == Ok then Good(Allocation(pointer, View())) else Bad(status)
      ensures status == Ok ==> v.Items?
      decreases t, 1
    {
      hide LowerAt, LayoutOf, Allocate;
      pointer := 0;
      if !v.Items? {
        return TypeMismatch, 0;
      }
      var layout;
      status, layout := ComputeLayout(t.element, ptr, 0);
      if status != Ok {
        return;
      }
      if |v.items| * layout.size > MAX_LIST_BYTES {
        return InvalidArgument, 0;
      }
      status, pointer := Reallocate(|v.items| * layout.size);
      if status != Ok {
        return;
      }
      if layout.alignment == 0 || pointer % layout.alignment != 0 {
        return Trapped, 0;
      }
      ghost var h := View();
      var base, i := pointer, 0;
      assert v.items[0..] == v.items;
      while i < |v.items|
        invariant 0 <= i <= |v.items| && base >= 0
        invariant LowerItems(h, t, ptr, pointer, layout.size, depth, v.items) ==
                    LowerItems(View(), t, ptr, base, layout.size, depth, v.items[i..])
      {
        status := LowerInto(t.element, ptr, base, depth + 1, v.items[i]);
        if status != Ok {
          return;
        }
        assert v.items[i..][1..] == v.items[i + 1..];
        base := base + layout.size;
        i := i + 1;
      }
      assert v.items[i..] == [];
      status := Ok;
    }
  }

  // ---------------------------------------------------------------- lifting

  method LoadNumber(m: seq<Byte>, address: nat, width: nat) returns (status: Status, value: nat)
    ensures ReadNumber(m, address, width) == if status == Ok then Good(value) else Bad(status)
  {
    if address + width > |m| {
      return Trapped, 0;
    }
    return Ok, FromLe(m[address..address + width]);
  }

  method LoadPair(m: seq<Byte>, ptr: Pointer, address: nat) returns (status: Status, pointer: nat, length: nat)
    ensures status == Ok ==>
              LiftPair(m, ptr, address).Good? && LiftPair(m, ptr, address).v.0 == pointer
              && LiftPair(m, ptr, address).v.1 == length
    ensures status != Ok ==> LiftPair(m, ptr, address) == Bad(status)
  {
    hide ReadNumber;
    length := 0;
    status, pointer := LoadNumber(m, address, ptr);
    if status != Ok {
      return;
    }
    if address + ptr > MAX64 {
      return Trapped, 0, 0;
    }
    status, length := LoadNumber(m, address + ptr, ptr);
  }

  const NOTHING := Items([])

  method LiftFrom(m: seq<Byte>, t: Ty, ptr: Pointer, address: nat, depth: nat) returns (status: Status, out: Val)
    ensures LiftAt(m, t, ptr, address, depth) == if status == Ok then Good(out) else Bad(status)
    decreases t, Arity(t) + 2
  {
    hide ReadNumber, LiftPair, LiftList, LiftFields, PayloadPlace, Pow2, FromBits;
    out := NOTHING;
    if depth >= MAX_DEPTH {
      return Trapped, out;
    }
    var bits: nat;
    match t {
      case Scalar(k) =>
        status, bits := LoadNumber(m, address, Width(k));
        if status == Ok {
          status, out := ScalarFrom(k, bits);
        }
      case Str =>
        var pointer, length;
        status, pointer, length := LoadPair(m, ptr, address);
        if status == Ok {
          if length > MAX_LIST_BYTES || pointer + length > |m| {
            return Trapped, out;
          }
          out := Text(m[pointer..pointer + length]);
        }
      case List(_) =>
        var pointer, length;
        status, pointer, length := LoadPair(m, ptr, address);
        if status == Ok {
          status, out := LiftItemsFrom(m, t, ptr, pointer, length, depth);
        }
      case Fields(record, fields) =>
        if fields == [] {
          return MalformedModule, out;
        }
        var vs;
        status, vs := LiftFieldsFrom(m, t, ptr, address, depth);
        out := Members(record, vs);
      case Cases(_, _) =>
        status, out := LiftCaseFrom(m, t, ptr, address, depth);
      case Enum(count) =>
        if count == 0 {
          return MalformedModule, out;
        }
        status, bits := LoadNumber(m, address, LabelWidth(count));
        if status == Ok {
          if bits >= count {
            return Trapped, out;
          }
          out := Label(bits);
        }
      case Flags(count) =>
        if count == 0 || count > 32 {
          return MalformedModule, out;
        }
        status, bits := LoadNumber(m, address, FlagsWidth(count));
        if status == Ok {
          if bits >= Pow2(count) {
            return Trapped, out;
          }
          out := FlagSet(bits);
        }
      case Handle(_) =>
        status, bits := LoadNumber(m, address, 4);
        if status == Ok {
          out := HandleOf(bits);
        }
    }
  }

  method ScalarFrom(k: ScalarKind, bits: nat) returns (status: Status, out: Val)
    ensures status == Ok ==> FromBits(k, bits).Good? && out == Num(k, FromBits(k, bits).v)
    ensures status != Ok ==> FromBits(k, bits) == Bad(status)
  {
    out := NOTHING;
    if k == Bool && bits > 1 {
      return Trapped, out;
    }
    if k == Char && !UnicodeScalar(bits) {
      return Trapped, out;
    }
    if Signed(k) && bits >= Pow256(Width(k)) / 2 {
      return Ok, Num(k, bits - Pow256(Width(k)));
    }
    return Ok, Num(k, bits);
  }

  method LiftCaseFrom(m: seq<Byte>, t: Ty, ptr: Pointer, address: nat, depth: nat) returns (status: Status, out: Val)
    requires t.Cases? && depth < MAX_DEPTH
    ensures LiftAt(m, t, ptr, address, depth) == if status == Ok then Good(out) else Bad(status)
    decreases t, Arity(t) + 1
  {
    hide ReadNumber, PayloadPlace;
    out := NOTHING;
    if t.cases == [] {
      return MalformedModule, out;
    }
    var tag, place;
    status, tag := LoadNumber(m, address, LabelWidth(|t.cases|));
    if status != Ok {
      return;
    }
    if tag >= |t.cases| {
      return Trapped, out;
    }
    status, place := ComputePayloadPlace(t, ptr, address);
    if status != Ok {
      return;
    }
    if t.cases[tag].None? {
      return Ok, Case(t.kind, tag, None);
    }
    var payload;
    status, payload := LiftFrom(m, t.cases[tag].value, ptr, place, depth + 1);
    if status == Ok {
      out := Case(t.kind, tag, Some(payload));
    }
  }

  method LiftFieldsFrom(m: seq<Byte>, t: Ty, ptr: Pointer, address: nat, depth: nat)
      returns (status: Status, items: seq<Val>)
    requires t.Fields?
    ensures LiftFields(m, t, ptr, address, depth, 0) == if status == Ok then Good(items) else Bad(status)
    decreases t, Arity(t) + 1
  {
    hide AlignUp, LiftAt, LayoutOf;
    items := [];
    var cursor, i := address, 0;
    PrependNone(LiftFields(m, t, ptr, address, depth, 0));
    while i < |t.fields|
      invariant 0 <= i <= |t.fields| && cursor >= 0
      invariant LiftFields(m, t, ptr, address, depth, 0) == Prepend(items, LiftFields(m, t, ptr, cursor, depth, i))
    {
      var layout, item;
      status, layout := ComputeLayout(t.fields[i], ptr, 0);
      if status != Ok {
        return;
      }
      if layout.alignment == 0 {
        return Trapped, items;
      }
      var aligned := AlignUp(cursor, layout.alignment);
      if aligned + layout.size > MAX64 {
        return Trapped, items;
      }
      status, item := LiftFrom(m, t.fields[i], ptr, aligned, depth + 1);
      if status != Ok {
        return;
      }
      PrependOne(items, item, LiftFields(m, t, ptr, aligned + layout.size, depth, i + 1));
      items := items + [item];
      cursor := aligned + layout.size;
      i := i + 1;
    }
    assert items + [] == items;
    status := Ok;
  }

  method LiftItemsFrom(m: seq<Byte>, t: Ty, ptr: Pointer, pointer: nat, count: nat, depth: nat)
      returns (status: Status, out: Val)
    requires t.List?
    ensures LiftList(m, t, ptr, pointer, count, depth) == if status == Ok then Good(out) else Bad(status)
    decreases t, 1
  {
    hide LiftAt, LayoutOf;
    out := NOTHING;
    var layout;
    status, layout := ComputeLayout(t.element, ptr, 0);
    if status != Ok {
      return;
    }
    if layout.size == 0 {
      return MalformedModule, out;
    }
    if count * layout.size > MAX_LIST_BYTES {
      return Trapped, out;
    }
    if layout.alignment == 0 || pointer % layout.alignment != 0 {
      return Trapped, out;
    }
    if pointer + count * layout.size > |m| {
      return Trapped, out;
    }
    var items: seq<Val> := [];
    var base, i := pointer, 0;
    PrependNone(LiftItems(m, t, ptr, pointer, layout.size, depth, count));
    while i < count
      invariant 0 <= i <= count && base >= 0
      invariant LiftItems(m, t, ptr, pointer, layout.size, depth, count) ==
                  Prepend(items, LiftItems(m, t, ptr, base, layout.size, depth, count - i))
    {
      var item;
      status, item := LiftFrom(m, t.element, ptr, base, depth + 1);
      if status != Ok {
        return;
      }
      PrependOne(items, item, LiftItems(m, t, ptr, base + layout.size, layout.size, depth, count - i - 1));
      items := items + [item];
      base := base + layout.size;
      i := i + 1;
    }
    assert items + [] == items;
    return Ok, Items(items);
  }

  /** What is already lifted, followed by what is still to come. */
  function Prepend(items: seq<Val>, rest: Result<seq<Val>>): (r: Result<seq<Val>>) {
    if rest.Bad? then rest else Good(items + rest.v)
  }

  lemma {:induction false} PrependNone(rest: Result<seq<Val>>)
    ensures Prepend([], rest) == rest
  {
    assert rest.Good? ==> [] + rest.v == rest.v;
  }

  lemma {:induction false} PrependOne(items: seq<Val>, item: Val, rest: Result<seq<Val>>)
    ensures Prepend(items, Prepend([item], rest)) == Prepend(items + [item], rest)
  {
    if rest.Good? {
      assert items + ([item] + rest.v) == (items + [item]) + rest.v;
    }
  }

  lemma {:induction false} TextOnly(h: Heap, v: Val)
    requires LowerText(h, v).Good?
    ensures v.Text?
  {
  }
}
