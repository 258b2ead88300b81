/**
  Core signatures of component functions (src/component_canonical.c): which
  parameters and results travel directly, and which through memory.
 */
module CanonicalSignature {
  import opened Common
  import opened CanonicalLayout
  import opened CanonicalFlatten

  datatype Context = Lift | Lower

  datatype Abi = Sync | Async | AsyncCallback

  datatype Func = Func(params: seq<Ty>, result: Option<Ty>)

  datatype Signature = Signature(params: seq<Flat>, results: seq<Flat>, paramsIndirect: bool, resultsIndirect: bool)

  // ---------------------------------------------------------------- as computed

  /** The first loop of `flatten_parameters`: the capped carrier count. */
  function CountFlat(params: seq<Ty>, ptr: Pointer, i: nat, count: nat): (r: Result<nat>)
    requires i <= |params|
    decreases |params| - i
  {
    if i == |params| then Good(count)
    else
      var part := FlattenOf(params[i], ptr, 0);
      if part.Bad? then Bad(part.status)
      else if count + |part.v| > MAX32 then Bad(Unsupported)
      else CountFlat(params, ptr, i + 1, count + |part.v|)
  }

  /** Its second loop: the carriers themselves, into an array of 17. */
  function CollectFlat(params: seq<Ty>, ptr: Pointer, i: nat, out: seq<Flat>): (r: Result<seq<Flat>>)
    requires i <= |params| && |out| <= CAP
    ensures r.Good? ==> |r.v| <= CAP
    decreases |params| - i
  {
    if i == |params| then Good(out)
    else
      var part := FlattenOf(params[i], ptr, 0);
      if part.Bad? then part
      else if |part.v| > CAP - |out| then Bad(InvalidArgument)
      else CollectFlat(params, ptr, i + 1, out + part.v)
  }

  function FlattenParameters(params: seq<Ty>, ptr: Pointer, limit: nat): (r: Result<Signature>)
    ensures r.Good? ==> |r.v.params| <= CAP
  {
    var raw := CountFlat(params, ptr, 0, 0);
    if raw.Bad? then Bad(raw.status)
    else if raw.v > limit then Good(Signature([PointerFlat(ptr)], [], true, false))
    else
      var direct := CollectFlat(params, ptr, 0, []);
      if direct.Bad? then Bad(direct.status) else Good(Signature(direct.v, [], false, false))
  }

  function ParamLimit(context: Context, abi: Abi): nat {
    if abi != Sync && context == Lower then MAX_FLAT_ASYNC_PARAMS else MAX_FLAT_PARAMS
  }

  function SignatureOf(f: Func, ptr: Pointer, context: Context, abi: Abi): (r: Result<Signature>) {
    if abi == AsyncCallback && context != Lift then Bad(InvalidArgument)
    else
      var params := FlattenParameters(f.params, ptr, ParamLimit(context, abi));
      if params.Bad? then params
      else
        var result := if f.result.None? then Good([]) else FlattenOf(f.result.value, ptr, 0);
        if result.Bad? then Bad(result.status) else AddResult(params.v, result.v, ptr, context, abi)
  }

  function AddResult(s: Signature, result: seq<Flat>, ptr: Pointer, context: Context,
      abi: Abi): (r: Result<Signature>) {
    if abi != Sync then
      if context == Lower then
        if result != [] then
          Good(s.(params := s.params + [PointerFlat(ptr)], results := [I32], resultsIndirect := true))
        else Good(s.(results := [I32]))
      else if abi == AsyncCallback then Good(s.(results := [I32]))
      else Good(s)
    else if |result| <= MAX_FLAT_RESULTS then Good(s.(results := result))
    else if context == Lift then Good(s.(results := [PointerFlat(ptr)], resultsIndirect := true))
    else if |s.params| >= CAP then Bad(Unsupported)
    else Good(s.(params := s.params + [PointerFlat(ptr)], resultsIndirect := true))
  }

  // ---------------------------------------------------------------- as specified

  function FlattenAll(params: seq<Ty>, ptr: Pointer, n: nat): (r: seq<Flat>)
    requires n <= |params|
  {
    if n == 0 then [] else FlattenAll(params, ptr, n - 1) + Flatten(params[n - 1], ptr)
  }

  /** `flatten_functype` of the Canonical ABI, on unbounded flattenings. */
  function Specified(f: Func, ptr: Pointer, context: Context, abi: Abi): (s: Signature) {
    var params := FlattenAll(f.params, ptr, |f.params|);
    var result := if f.result.None? then [] else Flatten(f.result.value, ptr);
    var indirect := |params| > ParamLimit(context, abi);
    var direct := if indirect then [PointerFlat(ptr)] else params;
    if abi == Sync then
      if |result| <= MAX_FLAT_RESULTS then Signature(direct, result, indirect, false)
      else if context == Lift then Signature(direct, [PointerFlat(ptr)], indirect, true)
      else Signature(direct + [PointerFlat(ptr)], [], indirect, true)
    else if context == Lower then
      Signature(direct + (if result == [] then [] else [PointerFlat(ptr)]), [I32], indirect, result != [])
    else Signature(direct, if abi == AsyncCallback then [I32] else [], indirect, false)
  }

  // ---------------------------------------------------------------- they agree

  function CappedCount(params: seq<Ty>, ptr: Pointer, n: nat): (c: nat)
    requires n <= |params|
  {
    if n == 0 then 0 else CappedCount(params, ptr, n - 1) + |Cut(Flatten(params[n - 1], ptr))|
  }

  lemma {:induction false} CappedGrows(params: seq<Ty>, ptr: Pointer, m: nat, n: nat)
    requires m <= n <= |params|
    ensures CappedCount(params, ptr, m) <= CappedCount(params, ptr, n)
    ensures |FlattenAll(params, ptr, m)| <= |FlattenAll(params, ptr, n)|
  {
    if m < n {
      CappedGrows(params, ptr, m, n - 1);
    }
  }

  /** The capped count crosses a limit below 17 exactly when the true one does. */
  lemma {:induction false} CappedDecides(params: seq<Ty>, ptr: Pointer, n: nat, limit: nat)
    requires n <= |params| && limit < CAP
    ensures CappedCount(params, ptr, n) <= |FlattenAll(params, ptr, n)|
    ensures CappedCount(params, ptr, n) > limit <==> |FlattenAll(params, ptr, n)| > limit
    ensures CappedCount(params, ptr, n) <= limit ==> CappedCount(params, ptr, n) == |FlattenAll(params, ptr, n)|
  {
    if n > 0 {
      CappedDecides(params, ptr, n - 1, limit);
    }
  }

  predicate AllShallow(params: seq<Ty>, i: nat) {
    forall j :: i <= j < |params| ==> Shallow(params[j], 0)
  }

  lemma {:induction false} CountExact(params: seq<Ty>, ptr: Pointer, i: nat)
    requires i <= |params| && CappedCount(params, ptr, i) <= MAX32
    ensures var r := CountFlat(params, ptr, i, CappedCount(params, ptr, i));
            && (r.Good? <==> AllShallow(params, i) && CappedCount(params, ptr, |params|) <= MAX32)
            && (r.Good? ==> r.v == CappedCount(params, ptr, |params|))
    decreases |params| - i
  {
    hide FlattenOf, Flatten, Shallow;
    if i < |params| {
      FlattenExact(params[i], ptr, 0);
      CappedGrows(params, ptr, i + 1, |params|);
      if CappedCount(params, ptr, i + 1) <= MAX32 {
        CountExact(params, ptr, i + 1);
      }
    }
  }

  lemma {:induction false} CollectExact(params: seq<Ty>, ptr: Pointer, i: nat)
    requires i <= |params| && AllShallow(params, i) && |FlattenAll(params, ptr, |params|)| < CAP
    requires |FlattenAll(params, ptr, i)| <= CAP
    ensures CollectFlat(params, ptr, i, FlattenAll(params, ptr, i)) == Good(FlattenAll(params, ptr, |params|))
    decreases |params| - i
  {
    hide FlattenOf, Flatten, Shallow;
    if i < |params| {
      CappedGrows(params, ptr, i + 1, |params|);
      FlattenExact(params[i], ptr, 0);
      CollectExact(params, ptr, i + 1);
    }
  }

  lemma {:induction false} ParametersExact(params: seq<Ty>, ptr: Pointer, limit: nat)
    requires limit < CAP
    ensures var r := FlattenParameters(params, ptr, limit); var flat := FlattenAll(params, ptr, |params|);
            && (r.Good? <==> AllShallow(params, 0) && CappedCount(params, ptr, |params|) <= MAX32)
            && (r.Good? ==>
                 r.v == Signature(if |flat| > limit then [PointerFlat(ptr)] else flat, [], |flat| > limit, false))
  {
    hide FlattenOf, Flatten, Shallow;
    CountExact(params, ptr, 0);
    CappedDecides(params, ptr, |params|, limit);
    if AllShallow(params, 0) && |FlattenAll(params, ptr, |params|)| <= limit {
      CollectExact(params, ptr, 0);
    }
  }

  /** Every signature that can be computed is the one that the unbounded
      definition gives, and fits its arrays; the overflow check never fires. */
  lemma {:induction false} SignatureExact(f: Func, ptr: Pointer, context: Context, abi: Abi)
    requires abi == AsyncCallback ==> context == Lift
    ensures var r := SignatureOf(f, ptr, context, abi);
            && (r.Good? <==>
                 AllShallow(f.params, 0) && (f.result.Some? ==> Shallow(f.result.value, 0))
                 && CappedCount(f.params, ptr, |f.params|) <= MAX32)
            && (r.Good? ==>
                 r.v == Specified(f, ptr, context, abi) && |r.v.params| <= CAP && |r.v.results| <= MAX_FLAT_RESULTS)
  {
    hide FlattenOf, Flatten, Shallow, FlattenParameters, Cut, FlattenAll, AllShallow;
    ParametersExact(f.params, ptr, ParamLimit(context, abi));
    if f.result.Some? {
      FlattenExact(f.result.value, ptr, 0);
      ResultCut(Flatten(f.result.value, ptr));
    }
  }

  lemma {:induction false} ResultCut(s: seq<Flat>)
    ensures (Cut(s) == [] <==> s == []) && (|Cut(s)| <= MAX_FLAT_RESULTS <==> |s| <= MAX_FLAT_RESULTS)
    ensures |s| <= MAX_FLAT_RESULTS ==> Cut(s) == s
  {
  }

  /** The limits in numbers: parameters travel through memory from the fifth
      carrier of an asynchronous import on, otherwise from the seventeenth on;
      results from the second carrier of a synchronous call on, and any result of
      an asynchronous import. The caller of an import passes the address for the
      results behind the parameters; asynchronous imports and callbacks return a
      32-bit status instead. */
  lemma {:induction false} SignatureLimits(f: Func, ptr: Pointer, context: Context, abi: Abi)
    requires SignatureOf(f, ptr, context, abi).Good?
    ensures var s := SignatureOf(f, ptr, context, abi).v; var address := if ptr == 8 then I64 else I32;
            var params := FlattenAll(f.params, ptr, |f.params|);
            var result := if f.result.None? then [] else Flatten(f.result.value, ptr);
            var lower, sync := context == Lower, abi == Sync;
            && (s.paramsIndirect <==> |params| > if lower && !sync then 4 else 16)
            && (s.resultsIndirect <==> if sync then |result| > 1 else lower && |result| > 0)
            && s.params == (if s.paramsIndirect then [address] else params)
                           + (if lower && s.resultsIndirect then [address] else [])
            && s.results == (if !sync then (if lower || abi == AsyncCallback then [I32] else [])
                             else if |result| < 2 then result
                             else if lower then [] else [address])
            && |s.params| <= 17
  {
    hide FlattenOf, Flatten, Shallow, FlattenParameters, Cut, FlattenAll, AllShallow, SignatureOf;
    assert abi == AsyncCallback ==> context == Lift by {
      CallbackLifts(f, ptr, context, abi);
    }
    SignatureExact(f, ptr, context, abi);
  }

  lemma {:induction false} CallbackLifts(f: Func, ptr: Pointer, context: Context, abi: Abi)
    requires SignatureOf(f, ptr, context, abi).Good?
    ensures abi == AsyncCallback ==> context == Lift
  {
    hide FlattenParameters, FlattenOf, AddResult;
  }
}
