/**
  The checked entry points for values in memory, and parameter tuples
  (src/component_canonical.c).
 */
module CanonicalValues {
  import opened Common
  import opened Bytes
  import opened CanonicalLayout
  import opened CanonicalMemory
  import opened CanonicalRoundTrip

  /** Layout, alignment and bounds come first. */
  function CheckPlace(t: Ty, ptr: Pointer, address: nat, length: nat): (s: Status) {
    var layout := LayoutOf(t, ptr, 0);
    if layout.Bad? then layout.status
    else if layout.v.alignment == 0 || address % layout.v.alignment != 0 then Trapped
    else if address + layout.v.size > length then Trapped
    else Ok
  }

  function LowerValue(h: Heap, t: Ty, ptr: Pointer, address: nat, v: Val): (r: Result<Heap>) {
    var check := CheckPlace(t, ptr, address, |h.bytes|);
    if check != Ok then Bad(check) else LowerAt(h, t, ptr, address, 0, v)
  }

  function LiftValue(m: seq<Byte>, t: Ty, ptr: Pointer, address: nat): (r: Result<Val>) {
    var check := CheckPlace(t, ptr, address, |m|);
    if check != Ok then Bad(check) else LiftAt(m, t, ptr, address, 0)
  }

  /** The addresses that belong to the caller of a store. */
  ghost predicate Mine(h: Heap, a: nat, n: nat) {
    |h.bytes| <= MAX64 && forall x :: a <= x < a + n ==> x in h.used
  }

  /** The status of a failed layout is not success. */
  lemma {:induction false} LayoutFails(t: Ty, ptr: Pointer, depth: nat)
    ensures LayoutOf(t, ptr, depth).Bad? ==> LayoutOf(t, ptr, depth).status != Ok
    decreases t, Arity(t) + 1
  {
    hide AlignUp;
    match t
    case Fields(_, _) =>
      if depth < MAX_DEPTH {
        FieldsLayoutFails(t, ptr, depth, 0, 1, 0);
      }
    case Cases(_, cases) =>
      if depth < MAX_DEPTH && cases != [] {
        CasesLayoutFails(t, ptr, depth, 0, 1, 0);
      }
    case _ =>
  }

  lemma {:induction false} FieldsLayoutFails(t: Ty, ptr: Pointer, depth: nat, i: nat, alignment: nat, offset: nat)
    requires t.Fields? && i <= |t.fields| && alignment > 0 && depth < MAX_DEPTH
    ensures var r := FieldsLayout(t, ptr, depth, i, alignment, offset); r.Bad? ==> r.status != Ok
    decreases t, |t.fields| - i
  {
    hide AlignUp, LayoutOf;
    if i < |t.fields| {
      LayoutFails(t.fields[i], ptr, depth + 1);
      var child := LayoutOf(t.fields[i], ptr, depth + 1);
      if child.Good? && child.v.alignment != 0 {
        FieldsLayoutFails(t, ptr, depth, i + 1, Max(alignment, child.v.alignment),
          AlignUp(offset, child.v.alignment) + child.v.size);
      }
    }
  }

  lemma {:induction false} CasesLayoutFails(t: Ty, ptr: Pointer, depth: nat, i: nat, alignment: nat, size: nat)
    requires t.Cases? && t.cases != [] && i <= |t.cases| && alignment > 0 && depth < MAX_DEPTH
    ensures var r := CasesLayout(t, ptr, depth, i, alignment, size); r.Bad? ==> r.status != Ok
    decreases t, |t.cases| - i
  {
    hide AlignUp, LayoutOf;
    if i < |t.cases| {
      if t.cases[i].None? {
        CasesLayoutFails(t, ptr, depth, i + 1, alignment, size);
      } else {
        LayoutFails(t.cases[i].value, ptr, depth + 1);
        var child := LayoutOf(t.cases[i].value, ptr, depth + 1);
        if child.Good? {
          CasesLayoutFails(t, ptr, depth, i + 1, Max(alignment, child.v.alignment), Max(size, child.v.size));
        }
      }
    }
  }

  lemma {:induction false} CheckedPlace(h: Heap, t: Ty, ptr: Pointer, a: nat)
    requires CheckPlace(t, ptr, a, |h.bytes|) == Ok && Mine(h, a, Size(t, ptr))
    ensures Place(h, t, ptr, a)
  {
    hide AlignUp, Alignment, Size, LayoutOf, Formed, Nesting;
    LayoutExact(t, ptr, 0);
    LayoutFails(t, ptr, 0);
  }

  /** The place of a value passes the checks in every memory that is long enough. */
  lemma {:induction false} PlaceChecks(h: Heap, t: Ty, ptr: Pointer, a: nat, length: nat)
    requires Place(h, t, ptr, a) && |h.bytes| <= length
    ensures CheckPlace(t, ptr, a, length) == Ok
  {
    hide AlignUp, Alignment, Size, LayoutOf, Formed, Nesting;
    LayoutExact(t, ptr, 0);
  }

  /** If lowering into memory succeeds, lifting from the same address gives the
      same value back, and no other used byte of the memory changed. */
  lemma {:induction false} LowerLift(h: Heap, t: Ty, ptr: Pointer, address: nat, v: Val)
    requires Mine(h, address, Size(t, ptr)) && LowerValue(h, t, ptr, address, v).Good?
    ensures var k := LowerValue(h, t, ptr, address, v).v;
            && LiftValue(k.bytes, t, ptr, address) == Good(v)
            && h.used <= k.used && |h.bytes| <= |k.bytes|
            && forall x :: 0 <= x < |h.bytes| && !(address <= x < address + Size(t, ptr)) &&
                           !(x in k.used && x !in h.used) ==>
                 k.bytes[x] == h.bytes[x]
  {
    hide LayoutOf, Alignment, Size, LowerAt, LiftAt, CheckPlace;
    var k := LowerValue(h, t, ptr, address, v).v;
    CheckedPlace(h, t, ptr, address);
    ValueStored(h, k.bytes, t, ptr, address, 0, v);
    PlaceChecks(h, t, ptr, address, |k.bytes|);
  }

  /** What lowering accepts is of the type; `Lifts` says it is lifted from `m`. */
  lemma {:induction false} ValuePlaced(h: Heap, m: seq<Byte>, t: Ty, ptr: Pointer, a: nat, v: Val)
    requires Place(h, t, ptr, a) && LowerValue(h, t, ptr, a, v).Good?
    ensures var k := LowerValue(h, t, ptr, a, v).v;
            && Step(h, k, a, Size(t, ptr))
            && (Agrees(h, k, m, a, Size(t, ptr)) ==> LiftValue(m, t, ptr, a) == Good(v))
  {
    hide LayoutOf, Alignment, Size, LowerAt, LiftAt, CheckPlace, Place;
    ValueStored(h, m, t, ptr, a, 0, v);
    PlaceInside(h, t, ptr, a);
    var k := LowerValue(h, t, ptr, a, v).v;
    if Agrees(h, k, m, a, Size(t, ptr)) {
      PlaceChecks(h, t, ptr, a, |m|);
    }
  }

  lemma {:induction false} PlaceInside(h: Heap, t: Ty, ptr: Pointer, a: nat)
    requires Place(h, t, ptr, a)
    ensures a + Size(t, ptr) <= |h.bytes|
  {
  }

  // ---------------------------------------------------------------- parameter tuples

  /** `canonical_parameter_layout`: the loop from `i` on. */
  function ParameterLayout(params: seq<Ty>, ptr: Pointer, i: nat, alignment: nat, offset: nat): (r: Result<Layout>)
    requires i <= |params| && alignment > 0
    decreases |params| - i
  {
    if i == |params| then
      if AlignUp(offset, alignment) > MAX64 then Bad(OutOfMemory)
      else Good(Layout(alignment, AlignUp(offset, alignment)))
    else
      var layout := LayoutOf(params[i], ptr, 0);
      if layout.Bad? then layout
      else if layout.v.alignment == 0 || AlignUp(offset, layout.v.alignment) + layout.v.size > MAX64 then
        Bad(OutOfMemory)
      else ParameterLayout(params, ptr, i + 1, Max(alignment, layout.v.alignment),
        AlignUp(offset, layout.v.alignment) + layout.v.size)
  }

  /** The parameters as one tuple. */
  function Tuple(params: seq<Ty>): Ty {
    Fields(false, params)
  }

  function LowerTuple(h: Heap, params: seq<Ty>, ptr: Pointer, address: nat, i: nat, offset: nat,
      vs: seq<Val>): (r: Result<Heap>)
    requires |vs| == |params| && i <= |params|
    decreases |params| - i
  {
    if i == |params| then Good(h)
    else
      var layout := LayoutOf(params[i], ptr, 0);
      if layout.Bad? then Bad(layout.status)
      else if layout.v.alignment == 0 || AlignUp(offset, layout.v.alignment) > MAX64 then Bad(OutOfMemory)
      else
        var o := AlignUp(offset, layout.v.alignment);
        var next := LowerValue(h, params[i], ptr, address + o, vs[i]);
        if next.Bad? then next else LowerTuple(next.v, params, ptr, address, i + 1, o + layout.v.size, vs)
  }

  function LiftTuple(m: seq<Byte>, params: seq<Ty>, ptr: Pointer, address: nat, i: nat,
      offset: nat): (r: Result<seq<Val>>)
    requires i <= |params|
    decreases |params| - i
  {
    if i == |params| then Good([])
    else
      var layout := LayoutOf(params[i], ptr, 0);
      if layout.Bad? then Bad(layout.status)
      else if layout.v.alignment == 0 || AlignUp(offset, layout.v.alignment) > MAX64 then Bad(OutOfMemory)
      else
        var o := AlignUp(offset, layout.v.alignment);
        var first := LiftValue(m, params[i], ptr, address + o);
        if first.Bad? then Bad(first.status)
        else
          var rest := LiftTuple(m, params, ptr, address, i + 1, o + layout.v.size);
          if rest.Bad? then rest else Good([first.v] + rest.v)
  }

  /** The tuple check of `transfer_parameter_tuple`. */
  function CheckTuple(params: seq<Ty>, ptr: Pointer, address: nat, length: nat): (s: Status) {
    var layout := ParameterLayout(params, ptr, 0, 1, 0);
    if layout.Bad? then layout.status
    else if layout.v.alignment == 0 || address % layout.v.alignment != 0 || (ptr == 4 && address > MAX32) then Trapped
    else if address + layout.v.size > length then Trapped
    else Ok
  }

  function LowerParameters(h: Heap, params: seq<Ty>, ptr: Pointer, address: nat, vs: seq<Val>): (r: Result<Heap>)
    requires |vs| == |params|
  {
    var check := CheckTuple(params, ptr, address, |h.bytes|);
    if check != Ok then Bad(check) else LowerTuple(h, params, ptr, address, 0, 0, vs)
  }

  function LiftParameters(m: seq<Byte>, params: seq<Ty>, ptr: Pointer, address: nat): (r: Result<seq<Val>>) {
    var check := CheckTuple(params, ptr, address, |m|);
    if check != Ok then Bad(check) else LiftTuple(m, params, ptr, address, 0, 0)
  }

  predicate SizedParams(params: seq<Ty>, ptr: Pointer, i: nat) {
    forall j :: i <= j < |params| ==> Sized(params[j], ptr, 0)
  }

  lemma {:induction false} ParameterLayoutDone(params: seq<Ty>, ptr: Pointer)
    ensures var t := Tuple(params);
            var r :=
              ParameterLayout(params, ptr, |params|, FieldAlignment(t, ptr, |params|), FieldEnd(t, ptr, |params|));
            && (r.Good? <==> Size(t, ptr) <= MAX64) && (r.Good? ==> r.v == Layout(Alignment(t, ptr), Size(t, ptr)))
            && (r.Bad? ==> r.status != Ok)
  {
    AlignUpFacts(FieldEnd(Tuple(params), ptr, |params|), Alignment(Tuple(params), ptr));
    hide AlignUp, FieldAlignment, FieldEnd;
  }

  /** One turn of the loop: it stops early only if the tuple is too large. */
  lemma {:induction false} ParameterLayoutTurn(params: seq<Ty>, ptr: Pointer, i: nat)
    requires i < |params|
    requires var child := LayoutOf(params[i], ptr, 0);
             if child.Good? then child.v == Layout(Alignment(params[i], ptr), Size(params[i], ptr))
             else child.status != Ok
    requires FieldOffset(Tuple(params), ptr, i) + Size(params[i], ptr) <= Size(Tuple(params), ptr)
    ensures var t := Tuple(params);
            var r := ParameterLayout(params, ptr, i, FieldAlignment(t, ptr, i), FieldEnd(t, ptr, i));
            if LayoutOf(params[i], ptr, 0).Bad? then r.Bad? && r.status != Ok
            else r == ParameterLayout(params, ptr, i + 1, FieldAlignment(t, ptr, i + 1), FieldEnd(t, ptr, i + 1))
                 || (r.Bad? && r.status != Ok && Size(t, ptr) > MAX64)
  {
    hide AlignUp, Alignment, Size, LayoutOf;
  }

  lemma {:induction false} ParameterLayoutExact(params: seq<Ty>, ptr: Pointer, i: nat)
    requires i <= |params|
    ensures var t := Tuple(params);
            var r := ParameterLayout(params, ptr, i, FieldAlignment(t, ptr, i), FieldEnd(t, ptr, i));
            && (r.Good? <==> SizedParams(params, ptr, i) && Size(t, ptr) <= MAX64)
            && (r.Good? ==> r.v == Layout(Alignment(t, ptr), Size(t, ptr)))
            && (r.Bad? ==> r.status != Ok)
    decreases |params| - i
  {
    hide AlignUp, LayoutOf, Sized, Alignment, Size, FieldAlignment, FieldEnd, FieldOffset, ParameterLayout;
    if i < |params| {
      LayoutExact(params[i], ptr, 0);
      LayoutFails(params[i], ptr, 0);
      ParameterLayoutExact(params, ptr, i + 1);
      FieldPlacement(Tuple(params), ptr, i);
      ParameterLayoutTurn(params, ptr, i);
    } else {
      ParameterLayoutDone(params, ptr);
    }
  }

  /** A place for all the parameters. */
  ghost predicate TuplePlace(h: Heap, params: seq<Ty>, ptr: Pointer, a: nat) {
    var t := Tuple(params);
    SizedParams(params, ptr, 0) && a % Alignment(t, ptr) == 0 && Owned(h, a, Size(t, ptr)) && a + Size(t, ptr) <= MAX64
  }

  lemma {:induction false} ParameterPlaced(h: Heap, k: Heap, params: seq<Ty>, ptr: Pointer, a: nat, i: nat)
    requires i < |params| && TuplePlace(h, params, ptr, a) && h.used <= k.used && |h.bytes| <= |k.bytes|
    ensures var t := Tuple(params);
            && Place(k, params[i], ptr, a + FieldOffset(t, ptr, i))
            && LayoutOf(params[i], ptr, 0) == Good(Layout(Alignment(params[i], ptr), Size(params[i], ptr)))
            && FieldOffset(t, ptr, i) == AlignUp(FieldEnd(t, ptr, i), Alignment(params[i], ptr)) <= MAX64
            && FieldEnd(t, ptr, i) <= FieldOffset(t, ptr, i)
            && FieldOffset(t, ptr, i) + Size(params[i], ptr) == FieldEnd(t, ptr, i + 1) <= Size(t, ptr)
  {
    hide AlignUp, Alignment, Size, FieldEnd, LayoutOf, Owned, Formed, Nesting;
    var t := Tuple(params);
    FieldPlacement(t, ptr, i);
    LayoutExact(params[i], ptr, 0);
    Divides(a, Alignment(params[i], ptr), Alignment(t, ptr));
    AddModulo(a, FieldOffset(t, ptr, i), Alignment(params[i], ptr));
    OwnedLater(h, k, a, Size(t, ptr), a + FieldOffset(t, ptr, i), Size(params[i], ptr));
  }

  lemma {:induction false} TupleStored(h: Heap, m: seq<Byte>, params: seq<Ty>, ptr: Pointer, a: nat, i: nat,
      vs: seq<Val>, h0: Heap)
    requires |vs| == |params| && i <= |vs| && TuplePlace(h0, params, ptr, a) && h0.used <= h.used
    requires |h0.bytes| <= |h.bytes|
    requires LowerTuple(h, params, ptr, a, i, FieldEnd(Tuple(params), ptr, i), vs).Good?
    ensures var t := Tuple(params); var e := FieldEnd(t, ptr, i); var k := LowerTuple(h, params, ptr, a, i, e, vs).v;
            e <= Size(t, ptr) &&
            var l := Size(t, ptr) - e;
            Step(h, k, a + e, l) && (Agrees(h, k, m, a + e, l) ==> LiftTuple(m, params, ptr, a, i, e) == Good(vs[i..]))
    decreases |vs| - i
  {
    hide AlignUp, Alignment, Size, FieldEnd, LayoutOf, Owned, Step, Agrees, LowerValue, LiftValue, Place, TuplePlace;
    var t := Tuple(params);
    var e, n := FieldEnd(t, ptr, i), Size(t, ptr);
    FieldEndInside(t, ptr, i);
    if i == |vs| {
      StepSame(h, a + e, n - e);
      assert vs[i..] == [];
    } else {
      ParameterPlaced(h0, h, params, ptr, a, i);
      var f, o := params[i], FieldOffset(t, ptr, i);
      var h1 := LowerValue(h, f, ptr, a + o, vs[i]).v;
      ValuePlaced(h, m, f, ptr, a + o, vs[i]);
      StepLengths(h, h1, a + o, Size(f, ptr));
      TupleStored(h1, m, params, ptr, a, i + 1, vs, h0);
      var d := FieldEnd(t, ptr, i + 1);
      var k := LowerTuple(h1, params, ptr, a, i + 1, d, vs).v;
      TupleOwned(h0, params, ptr, a);
      OwnedLater(h0, h, a, n, a + e, n - e);
      Chain(h, h1, k, m, a + e, n - e, a + o, Size(f, ptr), a + d, n - d);
      assert vs[i..] == [vs[i]] + vs[i + 1..];
    }
  }

  lemma {:induction false} TupleOwned(h: Heap, params: seq<Ty>, ptr: Pointer, a: nat)
    requires TuplePlace(h, params, ptr, a)
    ensures Owned(h, a, Size(Tuple(params), ptr))
  {
  }

  lemma {:induction false} CheckedTuple(h: Heap, params: seq<Ty>, ptr: Pointer, a: nat, length: nat)
    requires CheckTuple(params, ptr, a, |h.bytes|) == Ok && Mine(h, a, Size(Tuple(params), ptr)) && |h.bytes| <= length
    ensures TuplePlace(h, params, ptr, a) && CheckTuple(params, ptr, a, length) == Ok
  {
    hide AlignUp, Alignment, Size, ParameterLayout, SizedParams;
    ParameterLayoutExact(params, ptr, 0);
    TupleStart(params, ptr);
  }

  lemma {:induction false} TupleStart(params: seq<Ty>, ptr: Pointer)
    ensures FieldEnd(Tuple(params), ptr, 0) == 0 && FieldAlignment(Tuple(params), ptr, 0) == 1
  {
  }

  /** Parameters that travel through memory arrive as they were sent. */
  lemma {:induction false} ParametersRoundTrip(h: Heap, params: seq<Ty>, ptr: Pointer, address: nat, vs: seq<Val>)
    requires |vs| == |params| && Mine(h, address, Size(Tuple(params), ptr))
    requires LowerParameters(h, params, ptr, address, vs).Good?
    ensures var k := LowerParameters(h, params, ptr, address, vs).v;
            LiftParameters(k.bytes, params, ptr, address) == Good(vs) && Step(h, k, address, Size(Tuple(params), ptr))
  {
    hide AlignUp, Alignment, Size, FieldEnd, CheckTuple, LowerTuple, LiftTuple, TuplePlace, Mine;
    var k := LowerParameters(h, params, ptr, address, vs).v;
    var t := Tuple(params);
    TupleStart(params, ptr);
    CheckedTuple(h, params, ptr, address, |h.bytes|);
    TupleStored(h, k.bytes, params, ptr, address, 0, vs, h);
    CheckedTuple(h, params, ptr, address, |k.bytes|);
    assert vs[0..] == vs;
  }
}
