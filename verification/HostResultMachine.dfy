/**
  Preparing a host result step by step (src/component_api.c): measure, stage,
  retain, commit, and the way back from every failure.
 */
module HostResultMachine {
  import opened Common
  import opened HostResult

  const MAX_SLOTS := 65535

  /** Nesting stays below the limit. */
  predicate Shallow(v: Source, depth: nat)
    decreases v, Arity(v) + 1
  {
    && depth < MAX_DEPTH
    && (v.Items? ==> ShallowTo(v, depth, |v.items|))
    && (v.Choice? && v.payload.Some? ==> Shallow(v.payload.value, depth + 1))
  }

  predicate ShallowTo(v: Source, depth: nat, k: nat)
    requires v.Items? && k <= |v.items|
    decreases v, k
  {
    k > 0 ==> ShallowTo(v, depth, k - 1) && Shallow(v.items[k - 1], depth + 1)
  }

  /** How many resources a source owns. */
  function Owns(v: Source): nat
    decreases v, Arity(v) + 1
  {
    match v
    case Owned(_) => 1
    case Items(items) => OwnsTo(v, |items|)
    case Choice(payload) => if payload.None? then 0 else Owns(payload.value)
    case _ => 0
  }

  function OwnsTo(v: Source, k: nat): nat
    requires v.Items? && k <= |v.items|
    decreases v, k
  {
    if k == 0 then 0 else OwnsTo(v, k - 1) + Owns(v.items[k - 1])
  }

  lemma {:induction false} Quotient(count: nat, stride: nat, room: nat)
    requires stride > 0
    ensures count > room / stride <==> count * stride > room
  {
    var q := room / stride;
    assert q * stride <= room < q * stride + stride;
    if count > q {
      Times(q + 1, count, stride);
    } else {
      Times(count, q, stride);
    }
  }

  lemma {:induction false} Times(a: nat, b: nat, stride: nat)
    requires a <= b
    ensures a * stride <= b * stride
    decreases b
  {
    if a < b {
      Times(a, b - 1, stride);
    }
  }

  /** `argument_size_add`. */
  method AddSize(size: nat, count: nat, stride: nat, limit: nat) returns (status: Status, total: nat)
    requires stride > 0
    ensures status == Ok <==> size + count * stride <= limit
    ensures status == Ok ==> total == size + count * stride
    ensures status == Ok || status == OutOfMemory
  {
    total := size;
    if size > limit {
      return OutOfMemory, total;
    }
    Quotient(count, stride, limit - size);
    if count > (limit - size) / stride {
      return OutOfMemory, total;
    }
    return Ok, size + count * stride;
  }

  predicate Sane(s: Sizes) {
    s.value > 0 && s.result > 0 && s.resource > 0 && s.adopted > 0 && s.endpoint > 0 && s.flags > 0
  }

  lemma {:induction false} GrowsTo(v: Source, s: Sizes, depth: nat, k: nat, n: nat)
    requires v.Items? && k <= n <= |v.items|
    ensures CostTo(v, s, k) <= CostTo(v, s, n) && OwnsTo(v, k) <= OwnsTo(v, n)
    ensures MeasurableTo(v, n) ==> MeasurableTo(v, k)
    ensures ShallowTo(v, depth, n) ==> ShallowTo(v, depth, k)
    decreases n
  {
    if k < n {
      GrowsTo(v, s, depth, k, n - 1);
    }
  }

  /** What measuring checks of a source. */
  predicate Measures(v: Source, depth: nat, size: nat, available: nat, owned: nat, s: Sizes) {
    Measurable(v) && Shallow(v, depth) && size + Cost(v, s) <= available
      && (Owns(v) > 0 ==> owned + Owns(v) <= MAX_SLOTS)
  }

  method MeasureItems(v: Source, depth: nat, size: nat, available: nat, owned: nat, s: Sizes)
      returns (status: Status, total: nat, count: nat)
    requires Sane(s) && v.Items? && size <= available
    ensures status == Ok <==>
            && MeasurableTo(v, |v.items|) && ShallowTo(v, depth, |v.items|)
            && size + CostTo(v, s, |v.items|) <= available
            && (OwnsTo(v, |v.items|) > 0 ==> owned + OwnsTo(v, |v.items|) <= MAX_SLOTS)
    ensures status == Ok ==> total == size + CostTo(v, s, |v.items|) && count == owned + OwnsTo(v, |v.items|)
    decreases v, 0
  {
    hide Measurable, Shallow, Cost, Owns, Sane;
    total, count := size, owned;
    var i := 0;
    while i < |v.items|
      invariant 0 <= i <= |v.items| && MeasurableTo(v, i) && ShallowTo(v, depth, i)
      invariant total == size + CostTo(v, s, i) <= available
      invariant count == owned + OwnsTo(v, i) && (OwnsTo(v, i) > 0 ==> count <= MAX_SLOTS)
    {
      GrowsTo(v, s, depth, i + 1, |v.items|);
      status, total, count := Measure(v.items[i], depth + 1, total, available, count, s);
      if status != Ok {
        return;
      }
      i := i + 1;
    }
    status := Ok;
  }

  /** The case of an owned resource. */
  method MeasureOwned(v: Source, size: nat, available: nat, owned: nat, s: Sizes)
      returns (status: Status, total: nat, count: nat)
    requires Sane(s) && v.Owned? && size <= available
    ensures status == Ok <==> size + Cost(v, s) <= available && owned + Owns(v) <= MAX_SLOTS
    ensures status == Ok ==> total == size + Cost(v, s) && count == owned + Owns(v)
    ensures Owns(v) > 0
  {
    total, count := size, owned;
    if owned >= MAX_SLOTS {
      return OutOfMemory, total, count;
    }
    count := owned + 1;
    status, total := AddSize(size, 1, s.resource, available);
    if status == Ok {
      status, total := AddSize(total, 1, s.adopted, available);
    }
  }

  /** `result_storage_size`: it succeeds exactly if the source is well formed, not
      too deep, fits the budget, and the registry has room for its resources. */
  method Measure(v: Source, depth: nat, size: nat, available: nat, owned: nat, s: Sizes)
      returns (status: Status, total: nat, count: nat)
    requires Sane(s) && size <= available
    ensures status == Ok <==> Measures(v, depth, size, available, owned, s)
    ensures status == Ok ==> total == size + Cost(v, s) && count == owned + Owns(v)
    decreases v, 1
  {
    total, count := size, owned;
    if depth >= MAX_DEPTH {
      return Trapped, total, count;
    }
    match v
    case Broken(broken) =>
      status := if broken == Ok then InvalidArgument else broken;
    case Items(items) =>
      status, total := AddSize(size, |items|, s.value, available);
      if status != Ok {
        return;
      }
      status, total, count := MeasureItems(v, depth, total, available, owned, s);
    case Choice(payload) =>
      if payload.None? {
        return Ok, total, count;
      }
      status, total := AddSize(size, 1, s.value, available);
      if status != Ok {
        return;
      }
      status, total, count := Measure(payload.value, depth + 1, total, available, count, s);
    case Text(present, bytes) =>
      if bytes != 0 && !present {
        return InvalidArgument, total, count;
      }
      status, total := AddSize(size, if present && bytes == 0 then 1 else bytes, 1, available);
    case FlagWords =>
      status, total := AddSize(size, 1, s.flags, available);
    case Owned(_) =>
      status, total, count := MeasureOwned(v, size, available, owned, s);
    case End(_) =>
      status, total := AddSize(size, 1, s.endpoint, available);
    case Plain =>
      status := Ok;
  }

  // ---------------------------------------------------------------- staging

  lemma {:induction false} ArrayGrows(count: nat, items: seq<Node>, x: Node, f: Part -> nat)
    ensures Sum(PartsTo(Array(count, items + [x]), |items| + 1), f) ==
              Sum(PartsTo(Array(count, items), |items|), f) + Sum(Parts(x), f)
  {
    hide Sum;
    var more, less := Array(count, items + [x]), Array(count, items);
    assert more.items[..|items|] == less.items[..|items|];
    PartsOfArray(more, less, |items|);
    SumAppend(PartsTo(more, |items|), Parts(x), f);
  }

  lemma {:induction false} ArrayParts(count: nat, items: seq<Node>, f: Part -> nat)
    ensures Sum(Parts(Array(count, items)), f) ==
              (if count == 0 then 0 else f(ArrayPart(count))) + Sum(PartsTo(Array(count, items), |items|), f)
  {
    var n := Array(count, items);
    SumOne(ArrayPart(count), f);
    SumAppend(if count == 0 then [] else [ArrayPart(count)], PartsTo(n, |items|), f);
  }

  lemma {:induction false} BoxParts(n: Node, f: Part -> nat)
    ensures Sum(Parts(Box(Some(n))), f) == f(BoxPart) + Sum(Parts(n), f)
  {
    SumOne(BoxPart, f);
    SumAppend([BoxPart], Parts(n), f);
  }

  lemma {:induction false} LeafParts(n: Node, f: Part -> nat)
    requires !n.Array? && !n.Box?
    ensures |Parts(n)| <= 1 && Sum(Parts(n), f) == if Parts(n) == [] then 0 else f(Parts(n)[0])
  {
    if Parts(n) != [] {
      SumOne(Parts(n)[0], f);
      assert Parts(n) == [Parts(n)[0]];
    }
  }

  /** An instance as its host sees it. */
  class Host {
    const sizes: Sizes
    const limit: nat
    // the budget, the instance's reference count and its registered resources
    var used: nat
    var refs: nat
    var registry: seq<Handle>
    // allocated blocks, and how many more allocations will succeed
    var live: nat
    var luck: nat
    // the result that is being built
    var pending: seq<Handle>
    var ends: seq<Ref>
    var endpointBytes: nat
    var allocationBytes: nat
    var allocationRefs: nat
    // the source, until it is taken, and what was charged and not yet released
    var source: Option<Source>
    ghost var outstanding: seq<Part>
    ghost var usedBefore: nat
    ghost var refsBefore: nat

    /** The budget and the reference count are exactly accounted for. */
    ghost predicate Valid()
      reads this
    {
      && Sane(sizes) && used <= limit
      && used == usedBefore + Sum(outstanding, Bytes(sizes))
      && refs == refsBefore + Sum(outstanding, Refs)
    }

    method Allocate() returns (ok: bool)
      modifies `live, `luck
      ensures live == old(live) + if ok then 1 else 0
    {
      if luck == 0 {
        return false;
      }
      live, luck := live + 1, luck - 1;
      return true;
    }

    /** `component_instance_retain`. */
    method Retain() returns (ok: bool)
      modifies `refs
      ensures refs == old(refs) + if ok then 1 else 0
    {
      if refs == MAX_REFS {
        return false;
      }
      refs := refs + 1;
      return true;
    }

    /** A second live host owner of one provider handle is refused. */
    method Taken(h: Handle, owners: seq<Handle>) returns (taken: bool)
      ensures taken ==
                (h.external && exists o :: o in owners && o.external && o.identity == h.identity && o.rep == h.rep)
    {
      if !h.external {
        return false;
      }
      var i := 0;
      while i < |owners|
        invariant 0 <= i <= |owners|
        invariant forall o :: o in owners[..i] ==> !(o.external && o.identity == h.identity && o.rep == h.rep)
      {
        if owners[i].external && owners[i].identity == h.identity && owners[i].rep == h.rep {
          assert owners[i] in owners;
          return true;
        }
        assert owners[..i + 1] == owners[..i] + [owners[i]];
        i := i + 1;
      }
      assert owners[..i] == owners;
      return false;
    }

    /** `stage_result_resource`. */
    method StageResource(h: Handle) returns (status: Status)
      modifies `live, `luck, `refs, `pending
      ensures status == Ok ==> live == old(live) + 1 && refs == old(refs) + 1 && pending == old(pending) + [h]
      ensures status == Ok ==> |registry| + |pending| <= MAX_SLOTS
      ensures status == Ok ==> forall o :: o in old(pending) ==> o.context != h.context
      ensures status != Ok ==> live == old(live) && refs == old(refs)
    {
      if exists i :: 0 <= i < |pending| && pending[i].context == h.context {
        return InvalidArgument;
      }
      var taken := Taken(h, pending);
      if taken {
        return Trapped;
      }
      if |registry| + |pending| >= MAX_SLOTS {
        return OutOfMemory;
      }
      taken := Taken(h, registry);
      if taken {
        return Trapped;
      }
      var ok := Allocate();
      if !ok {
        return OutOfMemory;
      }
      ok := Retain();
      if !ok {
        live := live - 1;
        return InvalidArgument;
      }
      pending := pending + [h];
      return Ok;
    }

    method StageEndpoint(e: Ref) returns (status: Status)
      modifies `live, `luck, `refs, `ends, `endpointBytes
      ensures status == Ok ==>
                live == old(live) + 1 && refs == old(refs) + 1 && endpointBytes == old(endpointBytes) + sizes.endpoint
      ensures status != Ok ==> live == old(live) && refs == old(refs)
    {
      if e in ends {
        return InvalidArgument;
      }
      var ok := Retain();
      if !ok {
        return InvalidArgument;
      }
      ok := Allocate();
      if !ok {
        refs := refs - 1;
        return OutOfMemory;
      }
      ends := ends + [e];
      endpointBytes := endpointBytes + sizes.endpoint;
      return Ok;
    }

    /** `discard_staged_result`: frees what staging allocated and drops its references. */
    method Discard(n: Node)
      requires live >= Sum(Parts(n), Block) && refs >= Sum(Parts(n), Hold)
      modifies `live, `refs
      ensures live == old(live) - Sum(Parts(n), Block) && refs == old(refs) - Sum(Parts(n), Hold)
      decreases n, 1
    {
      match n
      case Array(count, items) =>
        ArrayParts(count, items, Block);
        ArrayParts(count, items, Hold);
        DiscardItems(n);
        if count != 0 {
          live := live - 1;
        }
      case Box(payload) =>
        if payload.Some? {
          BoxParts(payload.value, Block);
          BoxParts(payload.value, Hold);
          Discard(payload.value);
          live := live - 1;
        }
      case Words =>
        LeafParts(n, Block);
        LeafParts(n, Hold);
        live := live - 1;
      case Own(_) =>
        LeafParts(n, Block);
        LeafParts(n, Hold);
        live, refs := live - 1, refs - 1;
      case Tip(_) =>
        LeafParts(n, Block);
        LeafParts(n, Hold);
        live, refs := live - 1, refs - 1;
      case _ =>
        LeafParts(n, Block);
        LeafParts(n, Hold);
    }

    method DiscardItems(n: Node)
      requires n.Array? && live >= Sum(PartsTo(n, |n.items|), Block) && refs >= Sum(PartsTo(n, |n.items|), Hold)
      modifies `live, `refs
      ensures live == old(live) - Sum(PartsTo(n, |n.items|), Block)
      ensures refs == old(refs) - Sum(PartsTo(n, |n.items|), Hold)
      decreases n, 0
    {
      hide Parts, Sum;
      var i := |n.items|;
      while i > 0
        invariant 0 <= i <= |n.items|
        invariant live == old(live) - Sum(PartsTo(n, |n.items|), Block) + Sum(PartsTo(n, i), Block)
        invariant refs == old(refs) - Sum(PartsTo(n, |n.items|), Hold) + Sum(PartsTo(n, i), Hold)
      {
        i := i - 1;
        SumAppend(PartsTo(n, i), Parts(n.items[i]), Block);
        SumAppend(PartsTo(n, i), Parts(n.items[i]), Hold);
        Discard(n.items[i]);
      }
      SumOne(BoxPart, Block);
      SumOne(BoxPart, Hold);
    }

    /** `convert_result` while building: the staged tree has the shape of the
        source, or nothing is left of it. */
    method Stage(v: Source, depth: nat) returns (status: Status, n: Node)
      modifies `live, `luck, `refs, `pending, `ends, `endpointBytes
      ensures status == Ok ==>
                && n == Staged(v) && live == old(live) + Sum(Parts(n), Block) && refs == old(refs) + Sum(Parts(n), Hold)
                && endpointBytes == old(endpointBytes) + Sum(Parts(n), EndBytes(sizes))
                && |pending| == |old(pending)| + Sum(Parts(n), IsOwn)
      ensures status != Ok ==> live == old(live) && refs == old(refs)
      decreases v, 1
    {
      n := Leaf;
      if depth >= MAX_DEPTH {
        return Trapped, n;
      }
      match v
      case Items(items) =>
        if |items| != 0 {
          var ok := Allocate();
          if !ok {
            return OutOfMemory, n;
          }
        }
        status, n := StageItems(v, depth);
      case Choice(payload) =>
        if payload.None? {
          return Ok, Box(None);
        }
        status, n := StageBox(payload.value, depth);
      case FlagWords =>
        var ok := Allocate();
        if !ok {
          return OutOfMemory, n;
        }
        status, n := Ok, Words;
        LeafMeasures(n, sizes);
      case Owned(h) =>
        status := StageResource(h);
        if status == Ok {
          n := Own(h);
          LeafMeasures(n, sizes);
        }
      case End(e) =>
        status := StageEndpoint(e);
        if status == Ok {
          n := Tip(e);
          LeafMeasures(n, sizes);
        }
      case Broken(_) =>
        status := Unsupported;
      case _ =>
        status, n := Ok, Staged(v);
        LeafMeasures(n, sizes);
    }

    method StageBox(v: Source, depth: nat) returns (status: Status, n: Node)
      modifies `live, `luck, `refs, `pending, `ends, `endpointBytes
      ensures status == Ok ==>
                && n == Box(Some(Staged(v))) && live == old(live) + Sum(Parts(n), Block)
                && refs == old(refs) + Sum(Parts(n), Hold)
                && endpointBytes == old(endpointBytes) + Sum(Parts(n), EndBytes(sizes))
                && |pending| == |old(pending)| + Sum(Parts(n), IsOwn)
      ensures status != Ok ==> live == old(live) && refs == old(refs)
      decreases v, 2
    {
      hide Parts, Sum;
      var ok := Allocate();
      if !ok {
        return OutOfMemory, Leaf;
      }
      status, n := Stage(v, depth + 1);
      if status != Ok {
        live := live - 1;
        return;
      }
      BoxParts(n, Block);
      BoxParts(n, Hold);
      BoxParts(n, EndBytes(sizes));
      BoxParts(n, IsOwn);
      n := Box(Some(n));
    }

    /** The element loop; on failure the whole array is discarded. */
    method StageItems(v: Source, depth: nat) returns (status: Status, n: Node)
      requires v.Items? && live >= (if v.items == [] then 0 else 1)
      modifies `live, `luck, `refs, `pending, `ends, `endpointBytes
      ensures status == Ok ==>
                && n == Staged(v) && live + (if v.items == [] then 0 else 1) == old(live) + Sum(Parts(n), Block)
                && refs == old(refs) + Sum(Parts(n), Hold)
                && endpointBytes == old(endpointBytes) + Sum(Parts(n), EndBytes(sizes))
                && |pending| == |old(pending)| + Sum(Parts(n), IsOwn)
      ensures status != Ok ==> live + (if v.items == [] then 0 else 1) == old(live) && refs == old(refs)
      decreases v, 0
    {
      hide Parts, Sum;
      var items, count, i := [], |v.items|, 0;
      ghost var e := EndBytes(sizes);
      EmptyArray(count);
      while i < count
        invariant 0 <= i <= count == |v.items| && items == StagedTo(v, i)
        invariant live == old(live) + Sum(PartsTo(Array(count, items), i), Block)
        invariant refs == old(refs) + Sum(PartsTo(Array(count, items), i), Hold)
        invariant endpointBytes == old(endpointBytes) + Sum(PartsTo(Array(count, items), i), e)
        invariant |pending| == |old(pending)| + Sum(PartsTo(Array(count, items), i), IsOwn)
      {
        var x;
        status, x := Stage(v.items[i], depth + 1);
        if status != Ok {
          ArrayParts(count, items, Block);
          ArrayParts(count, items, Hold);
          Discard(Array(count, items));
          return status, Leaf;
        }
        ArrayGrows(count, items, x, Block);
        ArrayGrows(count, items, x, Hold);
        ArrayGrows(count, items, x, e);
        ArrayGrows(count, items, x, IsOwn);
        items := items + [x];
        i := i + 1;
      }
      n := Array(count, items);
      ArrayParts(count, items, Block);
      ArrayParts(count, items, Hold);
      ArrayParts(count, items, e);
      ArrayParts(count, items, IsOwn);
      status := Ok;
    }

    /** `retain_result_allocations`: a reference for every allocation of the tree.
        It may stop half way; `allocationRefs` says how many it took. */
    method RetainAllocations(n: Node) returns (status: Status)
      modifies `refs, `allocationRefs
      ensures refs - old(refs) == allocationRefs - old(allocationRefs) && allocationRefs >= old(allocationRefs)
      ensures status == Ok ==> allocationRefs == old(allocationRefs) + Sum(Parts(n), Kept)
      decreases n, 1
    {
      var owned := (n.Array? && n.count != 0) || (n.Box? && n.payload.Some?) || (n.Str? && n.present) || n.Words?
        || n.Own?;
      if owned {
        var ok := Retain();
        if !ok {
          return InvalidArgument;
        }
        allocationRefs := allocationRefs + 1;
      }
      if n.Array? {
        ArrayParts(n.count, n.items, Kept);
        status := RetainItems(n);
      } else if n.Box? && n.payload.Some? {
        BoxParts(n.payload.value, Kept);
        status := RetainAllocations(n.payload.value);
      } else {
        if !n.Box? {
          LeafParts(n, Kept);
        }
        status := Ok;
      }
    }

    method RetainItems(n: Node) returns (status: Status)
      requires n.Array?
      modifies `refs, `allocationRefs
      ensures refs - old(refs) == allocationRefs - old(allocationRefs) && allocationRefs >= old(allocationRefs)
      ensures status == Ok ==> allocationRefs == old(allocationRefs) + Sum(PartsTo(n, |n.items|), Kept)
      decreases n, 0
    {
      hide Parts, Sum;
      var i := 0;
      EmptyArray(n.count);
      SumOne(BoxPart, Kept);
      while i < |n.items|
        invariant 0 <= i <= |n.items| && refs - old(refs) == allocationRefs - old(allocationRefs)
        invariant allocationRefs == old(allocationRefs) + Sum(PartsTo(n, i), Kept)
      {
        SumAppend(PartsTo(n, i), Parts(n.items[i]), Kept);
        status := RetainAllocations(n.items[i]);
        if status != Ok {
          return;
        }
        i := i + 1;
      }
      status := Ok;
    }

    /** `commit_staged_result`: every part but the endpoints is charged, and the
        resources are registered. */
    method Commit(n: Node)
      modifies `allocationBytes, `registry
      ensures allocationBytes == old(allocationBytes) + Sum(Parts(n), OtherBytes(sizes))
      ensures |registry| == |old(registry)| + Sum(Parts(n), IsOwn)
      decreases n, 1
    {
      ghost var f := OtherBytes(sizes);
      match n
      case Array(count, items) =>
        ArrayParts(count, items, f);
        ArrayParts(count, items, IsOwn);
        if count != 0 {
          allocationBytes := allocationBytes + count * sizes.value;
        }
        CommitItems(n);
      case Box(payload) =>
        if payload.Some? {
          BoxParts(payload.value, f);
          BoxParts(payload.value, IsOwn);
          allocationBytes := allocationBytes + sizes.value;
          Commit(payload.value);
        }
      case Own(h) =>
        LeafParts(n, f);
        LeafParts(n, IsOwn);
        allocationBytes := allocationBytes + (sizes.resource + sizes.adopted);
        registry := [h] + registry;
      case Str(present, size) =>
        LeafParts(n, f);
        LeafParts(n, IsOwn);
        if present {
          allocationBytes := allocationBytes + if size == 0 then 1 else size;
        }
      case Words =>
        LeafParts(n, f);
        LeafParts(n, IsOwn);
        allocationBytes := allocationBytes + sizes.flags;
      case _ =>
        LeafParts(n, f);
        LeafParts(n, IsOwn);
    }

    method CommitItems(n: Node)
      requires n.Array?
      modifies `allocationBytes, `registry
      ensures allocationBytes == old(allocationBytes) + Sum(PartsTo(n, |n.items|), OtherBytes(sizes))
      ensures |registry| == |old(registry)| + Sum(PartsTo(n, |n.items|), IsOwn)
      decreases n, 0
    {
      hide Parts, Sum;
      ghost var f := OtherBytes(sizes);
      var i := 0;
      SumOne(BoxPart, f);
      SumOne(BoxPart, IsOwn);
      while i < |n.items|
        invariant 0 <= i <= |n.items|
        invariant allocationBytes == old(allocationBytes) + Sum(PartsTo(n, i), f)
        invariant |registry| == |old(registry)| + Sum(PartsTo(n, i), IsOwn)
      {
        SumAppend(PartsTo(n, i), Parts(n.items[i]), f);
        SumAppend(PartsTo(n, i), Parts(n.items[i]), IsOwn);
        Commit(n.items[i]);
        i := i + 1;
      }
    }

    // -------------------------------------------------------------- the transaction

    /** Stages the source and retains its allocations, or rolls both back. */
    method Build(v: Source) returns (status: Status, n: Node)
      requires allocationRefs == 0
      modifies `live, `luck, `refs, `pending, `ends, `endpointBytes, `allocationRefs
      ensures status == Ok ==>
                && n == Staged(v) && live == old(live) + Sum(Parts(n), Block)
                && refs == old(refs) + Sum(Parts(n), Hold) + Sum(Parts(n), Kept)
                && endpointBytes == old(endpointBytes) + Sum(Parts(n), EndBytes(sizes))
      ensures status != Ok ==> live == old(live) && refs == old(refs)
    {
      hide Parts, Sum, Staged;
      status, n := Stage(v, 0);
      if status != Ok {
        return;
      }
      status := RetainAllocations(n);
      if status != Ok {
        Discard(n);
        while allocationRefs != 0
          invariant refs == old(refs) + allocationRefs && live == old(live)
        {
          allocationRefs := allocationRefs - 1;
          refs := refs - 1;
        }
      }
    }

    /** Charges a measured source, stages and commits it. */
    method Charged(v: Source, measured: nat) returns (status: Status, bytes: nat)
      requires Valid() && used + measured <= limit && measured == sizes.result + Cost(v, sizes) && Measurable(v)
      requires endpointBytes == 0 && allocationBytes == 0 && allocationRefs == 0
      modifies `used, `refs, `registry, `live, `luck, `pending, `ends, `endpointBytes, `allocationBytes,
        `allocationRefs, `outstanding
      ensures Valid()
      ensures status != Ok ==>
                used == old(used) && refs == old(refs) && live == old(live) && registry == old(registry)
                && outstanding == old(outstanding)
      ensures status == Ok ==>
                && bytes == sizes.result && outstanding == old(outstanding) + [RootPart] + Parts(Staged(v))
                && used == old(used) + measured
                && live == old(live) + 1 + Sum(Parts(Staged(v)), Block)
                && |registry| == |old(registry)| + Sum(Parts(Staged(v)), IsOwn)
    {
      hide Parts, Sum, Staged, Cost, Measurable, Bytes, OtherBytes, EndBytes;
      bytes := measured;
      var ok := Retain();
      if !ok {
        return InvalidArgument, bytes;
      }
      used := used + bytes;
      ok := Allocate();
      if !ok {
        used, refs := used - bytes, refs - 1;
        return OutOfMemory, bytes;
      }
      var n;
      status, n := Build(v);
      if status != Ok {
        live := live - 1;
        used, refs := used - bytes, refs - 1;
        return;
      }
      Commit(n);
      CostIsCharged(v, sizes);
      NoRoot(n);
      ResultSums(outstanding, Parts(n), sizes);
      outstanding := outstanding + [RootPart] + Parts(n);
      bytes := bytes - endpointBytes - allocationBytes;
    }

    /** `prepare_host_result`. `checked` is the type check of the source, which
        has no effect. On success the whole result is charged, part by part, and
        what is left for its owner record is that record's own size. On failure
        nothing has changed. */
    method Prepare(checked: Status) returns (status: Status, bytes: nat)
      requires Valid()
      modifies `used, `refs, `registry, `live, `luck, `pending, `ends, `endpointBytes, `allocationBytes,
        `allocationRefs, `source, `outstanding
      ensures Valid()
      ensures status != Ok ==>
                && used == old(used) && refs == old(refs) && live == old(live) && registry == old(registry)
                && source == old(source) && outstanding == old(outstanding)
      ensures status == Ok ==>
                && old(source).Some? && source == None && bytes == sizes.result
                && var v := old(source).value;
                && outstanding == old(outstanding) + [RootPart] + Parts(Staged(v))
                && used == old(used) + sizes.result + Cost(v, sizes)
                && live == old(live) + 1 + Sum(Parts(Staged(v)), Block)
                && |registry| == |old(registry)| + Sum(Parts(Staged(v)), IsOwn)
    {
      hide Parts, Sum, Staged, Cost, Measurable, Shallow, Owns, Bytes;
      pending, ends, endpointBytes, allocationBytes, allocationRefs := [], [], 0, 0, 0;
      bytes := sizes.result;
      if source.None? {
        return InvalidArgument, bytes;
      }
      var available := limit - used;
      if bytes > available {
        return OutOfMemory, bytes;
      }
      var v, owned := source.value, 0;
      status, bytes, owned := Measure(v, 0, bytes, available, |registry|, sizes);
      if status == Ok {
        status := checked;
      }
      if status != Ok {
        return;
      }
      status, bytes := Charged(v, bytes);
      if status == Ok {
        source := None;
      }
    }

    /** Releasing a part gives back its bytes and its references
        (`result_allocation_release`). */
    method Release(p: Part)
      requires Valid() && p in outstanding
      modifies `used, `refs, `outstanding
      ensures Valid() && used == old(used) - Charge(p, sizes) && refs == old(refs) - Refs(p)
      ensures multiset(outstanding) == multiset(old(outstanding)) - multiset{p}
    {
      ghost var k :| 0 <= k < |outstanding| && outstanding[k] == p;
      ghost var rest := outstanding[..k] + outstanding[k + 1..];
      Without(outstanding, k, Bytes(sizes));
      Without(outstanding, k, Refs);
      used := used - Charge(p, sizes);
      refs := refs - if p.OwnPart? then 2 else 1;
      assert outstanding == outstanding[..k] + [p] + outstanding[k + 1..];
      outstanding := rest;
    }

    /** Whatever the order in which the parts are released, the budget and the
        reference count come back to where they were. */
    method ReleaseAll(ps: seq<Part>)
      requires Valid() && multiset(ps) == multiset(outstanding)
      modifies `used, `refs, `outstanding
      ensures Valid() && outstanding == [] && used == usedBefore && refs == refsBefore
    {
      var i := 0;
      assert ps[0..] == ps;
      while i < |ps|
        invariant 0 <= i <= |ps| && Valid() && multiset(ps[i..]) == multiset(outstanding)
      {
        assert ps[i..] == [ps[i]] + ps[i + 1..];
        assert ps[i] in multiset(outstanding);
        Release(ps[i]);
        i := i + 1;
      }
      assert ps[i..] == [] && |multiset(outstanding)| == 0;
      assert outstanding == [];
    }
  }

  /** The charges of endpoints and of allocations make up all charges of a result,
      and so do the references of its wrappers and of its allocations. */
  lemma {:induction false} ResultSums(before: seq<Part>, ps: seq<Part>, s: Sizes)
    requires RootPart !in ps
    ensures Sum(ps, Bytes(s)) == Sum(ps, EndBytes(s)) + Sum(ps, OtherBytes(s))
    ensures Sum(before + [RootPart] + ps, Bytes(s)) == Sum(before, Bytes(s)) + s.result + Sum(ps, Bytes(s))
    ensures Sum(before + [RootPart] + ps, Refs) == Sum(before, Refs) + 1 + Sum(ps, Hold) + Sum(ps, Kept)
  {
    hide Sum;
    SumSplit(ps, Bytes(s), EndBytes(s), OtherBytes(s));
    SumSplit(ps, Refs, Hold, Kept);
    SumAppend(before + [RootPart], ps, Bytes(s));
    SumAppend(before, [RootPart], Bytes(s));
    SumOne(RootPart, Bytes(s));
    SumAppend(before + [RootPart], ps, Refs);
    SumAppend(before, [RootPart], Refs);
    SumOne(RootPart, Refs);
  }

  lemma {:induction false} NoRoot(n: Node)
    ensures RootPart !in Parts(n)
    decreases n, Filled(n) + 1
  {
    if n.Array? {
      NoRootTo(n, |n.items|);
    } else if n.Box? && n.payload.Some? {
      NoRoot(n.payload.value);
    }
  }

  lemma {:induction false} NoRootTo(n: Node, k: nat)
    requires n.Array? && k <= |n.items|
    ensures RootPart !in PartsTo(n, k)
    decreases n, k
  {
    if k > 0 {
      NoRootTo(n, k - 1);
      NoRoot(n.items[k - 1]);
    }
  }

  lemma {:induction false} Without(ps: seq<Part>, k: nat, f: Part -> nat)
    requires k < |ps|
    ensures Sum(ps, f) == Sum(ps[..k] + ps[k + 1..], f) + f(ps[k])
  {
    hide Sum;
    assert ps == ps[..k] + ([ps[k]] + ps[k + 1..]);
    SumAppend(ps[..k], [ps[k]] + ps[k + 1..], f);
    SumAppend([ps[k]], ps[k + 1..], f);
    SumAppend(ps[..k], ps[k + 1..], f);
    SumOne(ps[k], f);
  }

  lemma {:induction false} LeafMeasures(n: Node, s: Sizes)
    requires !n.Array? && !n.Box?
    ensures Sum(Parts(n), Block) == (if n.Words? || n.Own? || n.Tip? then 1 else 0)
    ensures Sum(Parts(n), Hold) == (if n.Own? || n.Tip? then 1 else 0)
    ensures Sum(Parts(n), EndBytes(s)) == (if n.Tip? then s.endpoint else 0)
    ensures Sum(Parts(n), IsOwn) == (if n.Own? then 1 else 0)
  {
    LeafParts(n, Block);
    LeafParts(n, Hold);
    LeafParts(n, EndBytes(s));
    LeafParts(n, IsOwn);
  }

  lemma {:induction false} EmptyArray(count: nat)
    ensures forall f :: Sum(PartsTo(Array(count, []), 0), f) == 0
  {
  }
}
