/**
  Component type graphs: copying a type with everything it refers to into
  another graph, and closing the gap between serialized and auxiliary types
  (src/component_binary.c).
 */
module TypeGraph {
  import opened Common

  datatype Kind =
    | Undefined | Value(code: nat) | List | Record | Tuple | Variant | OptionType | ResultType | Enum | Flags
    | Function | Future | Stream | Own | Borrow | Resource | Instance

  datatype Ref = Inline(code: nat) | Indexed(index: nat)

  /** One type. `detail` is everything that is copied as it stands: names, labels,
      flags and identities; `refs` are the references to other types, in the order
      in which they are visited. `alias` marks a resource that is defined elsewhere. */
  datatype Node = Node(kind: Kind, detail: nat, refs: seq<Ref>, alias: bool)

  /** Kinds that have no references. */
  predicate Leaf(k: Kind) {
    k.Undefined? || k.Value? || k.Enum? || k.Flags? || k.Resource? || k.Instance?
  }

  predicate NodeOk(n: Node) {
    Leaf(n.kind) ==> n.refs == []
  }

  const MAX_DEPTH := 64
  const NONE := 0xffff_ffff

  // ---------------------------------------------------------------- meaning

  /** A type unfolded `n` levels deep. Whether a resource is an alias is not part
      of what it means. */
  datatype Tree = Cut | Missing | Basic(code: nat) | Branch(kind: Kind, detail: nat, children: seq<Tree>)

  function Unfold(g: seq<Node>, r: Ref, n: nat): (t: Tree)
    decreases n, 1, 0
  {
    if r.Inline? then Basic(r.code)
    else if n == 0 then Cut
    else if r.index >= |g| then Missing
    else Branch(g[r.index].kind, g[r.index].detail, Children(g, g[r.index].refs, n - 1))
  }

  function Children(g: seq<Node>, refs: seq<Ref>, n: nat): (ts: seq<Tree>)
    decreases n, 2, |refs|
  {
    if refs == [] then [] else [Unfold(g, refs[0], n)] + Children(g, refs[1..], n)
  }

  // ---------------------------------------------------------------- renaming

  /** `mapping` takes type `s` of one graph to type `mapping[s]` of another. */
  predicate Mapped(mapping: seq<nat>, r: Ref) {
    r.Indexed? ==> r.index < |mapping| && mapping[r.index] != NONE
  }

  function Renamed(mapping: seq<nat>, r: Ref): Ref {
    if r.Inline? || r.index >= |mapping| then r else Indexed(mapping[r.index])
  }

  /** `b` is `a` with its references renamed. */
  predicate Copy(mapping: seq<nat>, a: Node, b: Node) {
    && b.kind == a.kind && b.detail == a.detail && |b.refs| == |a.refs|
    && (forall i :: 0 <= i < |a.refs| ==> Mapped(mapping, a.refs[i]) && b.refs[i] == Renamed(mapping, a.refs[i]))
  }

  /** Every type that `mapping` covers has a copy in `dst`. */
  predicate Faithful(src: seq<Node>, dst: seq<Node>, mapping: seq<nat>) {
    && |mapping| == |src|
    && (forall s :: 0 <= s < |src| && mapping[s] != NONE ==>
         mapping[s] < |dst| && Copy(mapping, src[s], dst[mapping[s]]))
  }

  /** A faithful mapping keeps what types mean, to any depth; the graphs may be cyclic. */
  lemma {:induction false} FaithfulMeaning(src: seq<Node>, dst: seq<Node>, mapping: seq<nat>, r: Ref, n: nat)
    requires Faithful(src, dst, mapping) && Mapped(mapping, r)
    ensures Unfold(dst, Renamed(mapping, r), n) == Unfold(src, r, n)
    decreases n, 1, 0
  {
    if r.Indexed? && n > 0 {
      var a, b := src[r.index], dst[mapping[r.index]];
      assert Copy(mapping, a, b);
      FaithfulChildren(src, dst, mapping, a.refs, b.refs, n - 1);
    }
  }

  lemma {:induction false} FaithfulChildren(src: seq<Node>, dst: seq<Node>, mapping: seq<nat>, a: seq<Ref>,
      b: seq<Ref>, n: nat)
    requires Faithful(src, dst, mapping) && |a| == |b|
    requires forall i :: 0 <= i < |a| ==> Mapped(mapping, a[i]) && b[i] == Renamed(mapping, a[i])
    ensures Children(dst, b, n) == Children(src, a, n)
    decreases n, 2, |a|
  {
    if a != [] {
      FaithfulMeaning(src, dst, mapping, a[0], n);
      FaithfulChildren(src, dst, mapping, a[1..], b[1..], n);
    }
  }

  // ---------------------------------------------------------------- cloning

  /** `later` extends `earlier` by new entries. */
  predicate Extends(earlier: seq<nat>, later: seq<nat>) {
    && |later| == |earlier|
    && (forall s :: 0 <= s < |earlier| && earlier[s] != NONE ==> later[s] == earlier[s])
  }

  predicate Injective(mapping: seq<nat>) {
    forall s, u :: 0 <= s < u < |mapping| && mapping[s] != NONE ==> mapping[s] != mapping[u]
  }

  /** How many source types have a place in the destination. */
  function Placed(mapping: seq<nat>): (n: nat)
    ensures n <= |mapping|
  {
    if mapping == [] then 0 else (if mapping[|mapping| - 1] == NONE then 0 else 1) + Placed(mapping[..|mapping| - 1])
  }

  lemma {:induction false} PlacedOne(mapping: seq<nat>, s: nat, to: nat)
    requires s < |mapping| && mapping[s] == NONE && to != NONE
    ensures Placed(mapping[s := to]) == Placed(mapping) + 1
  {
    var last := |mapping| - 1;
    if s == last {
      assert mapping[s := to][..last] == mapping[..last];
    } else {
      PlacedOne(mapping[..last], s, to);
      assert mapping[s := to][..last] == mapping[..last][s := to];
    }
  }

  lemma {:induction false} CopyLater(m: seq<nat>, k: seq<nat>, a: Node, b: Node)
    requires Copy(m, a, b) && Extends(m, k)
    ensures Copy(k, a, b)
  {
  }

  /** Every reference of `node` is to a type that has a place. */
  predicate Within(node: Node, m: seq<nat>) {
    forall k :: 0 <= k < |node.refs| && node.refs[k].Indexed? ==> node.refs[k].index in m && node.refs[k].index != NONE
  }

  lemma {:induction false} CopyWithin(m: seq<nat>, a: Node, b: Node)
    requires Copy(m, a, b)
    ensures Within(b, m)
  {
    forall k | 0 <= k < |b.refs| && b.refs[k].Indexed?
      ensures b.refs[k].index in m && b.refs[k].index != NONE
    {
      assert b.refs[k] == Renamed(m, a.refs[k]);
    }
  }

  lemma {:induction false} WithinLater(m: seq<nat>, k: seq<nat>, node: Node)
    requires Within(node, m) && Extends(m, k)
    ensures Within(node, k)
  {
    forall i | 0 <= i < |node.refs| && node.refs[i].Indexed?
      ensures node.refs[i].index in k && node.refs[i].index != NONE
    {
      var s :| 0 <= s < |m| && m[s] == node.refs[i].index;
      assert k[s] == m[s];
    }
  }

  datatype Progress = Progress(count: nat, types: seq<Node>, mapping: seq<nat>)

  /** From `p` to `q` only new types and the type `slot` were written, and every
      source type that found its place has its copy; new types refer only to copies. */
  ghost predicate Since(source: seq<Node>, p: Progress, q: Progress, slot: nat) {
    && |p.mapping| == |source| && Extends(p.mapping, q.mapping) && p.count <= q.count <= |q.types| == |p.types|
    && (forall i :: 0 <= i < p.count && i != slot ==> q.types[i] == p.types[i])
    && (forall s :: 0 <= s < |source| && p.mapping[s] == NONE && q.mapping[s] != NONE ==>
          p.count <= q.mapping[s] < q.count && Copy(q.mapping, source[s], q.types[q.mapping[s]]))
    && q.count - p.count == Placed(q.mapping) - Placed(p.mapping)
    && (forall i :: p.count <= i < q.count ==> Within(q.types[i], q.mapping))
  }

  /** A step that writes no old slot follows one that wrote `slot`. */
  lemma {:induction false} SinceChain(source: seq<Node>, p: Progress, q: Progress, r: Progress, slot: nat)
    requires Since(source, p, q, slot) && Since(source, q, r, q.count) && slot < p.count
    ensures Since(source, p, r, slot) && r.types[slot] == q.types[slot] && Extends(q.mapping, r.mapping)
  {
    forall s | 0 <= s < |source| && p.mapping[s] == NONE && r.mapping[s] != NONE
      ensures p.count <= r.mapping[s] < r.count && Copy(r.mapping, source[s], r.types[r.mapping[s]])
    {
      if q.mapping[s] != NONE {
        CopyLater(q.mapping, r.mapping, source[s], q.types[q.mapping[s]]);
      }
    }
    forall i | p.count <= i < r.count
      ensures Within(r.types[i], r.mapping)
    {
      if i < q.count {
        WithinLater(q.mapping, r.mapping, q.types[i]);
      }
    }
  }

  /** Writing the slot again changes nothing else. */
  lemma {:induction false} SinceWrite(source: seq<Node>, p: Progress, q: Progress, slot: nat, node: Node)
    requires Since(source, p, q, slot) && slot < p.count
    ensures Since(source, p, q.(types := q.types[slot := node]), slot)
  {
    hide Copy, Extends, Placed;
  }

  lemma {:induction false} SinceStart(source: seq<Node>, p: Progress, slot: nat)
    requires |p.mapping| == |source| && p.count <= |p.types|
    ensures Since(source, p, p, slot)
  {
  }

  lemma {:induction false} SinceLengths(source: seq<Node>, p: Progress, q: Progress, slot: nat)
    requires Since(source, p, q, slot)
    ensures p.count <= q.count <= |q.types| == |p.types|
  {
  }

  /** The first `i` references are renamed, the others still the source's. */
  predicate RefsDone(m: seq<nat>, a: seq<Ref>, b: seq<Ref>, i: nat) {
    && |b| == |a|
    && (forall k :: 0 <= k < i && k < |a| ==> Mapped(m, a[k]) && b[k] == Renamed(m, a[k]))
    && (forall k :: i <= k < |a| ==> b[k] == a[k])
  }

  lemma {:induction false} RefsStart(m: seq<nat>, a: seq<Ref>)
    ensures RefsDone(m, a, a, 0)
  {
  }

  lemma {:induction false} RefsNext(m: seq<nat>, a: seq<Ref>, b: seq<Ref>, i: nat)
    requires RefsDone(m, a, b, i) && i < |a|
    ensures |b| == |a| && b[i] == a[i]
  {
  }

  lemma {:induction false} RefsStep(m: seq<nat>, k: seq<nat>, a: seq<Ref>, b: seq<Ref>, i: nat, r: Ref)
    requires RefsDone(m, a, b, i) && i < |a| && Extends(m, k) && Mapped(k, a[i]) && r == Renamed(k, a[i])
    ensures |b| == |a| && RefsDone(k, a, b[i := r], i + 1)
  {
  }

  lemma {:induction false} RefsCopy(m: seq<nat>, a: Node, b: Node)
    requires RefsDone(m, a.refs, b.refs, |a.refs|) && b == a.(refs := b.refs)
    ensures Copy(m, a, b)
  {
  }

  lemma {:induction false} LeafCopy(m: seq<nat>, a: Node, b: Node)
    requires NodeOk(a) && Leaf(a.kind) && (b == a || b == a.(alias := true))
    ensures Copy(m, a, b)
  {
  }

  /** Opening a new slot for `from` and filling it is a step that writes no old slot. */
  lemma {:induction false} SinceOpened(source: seq<Node>, p: Progress, q: Progress, r: Progress, from: nat)
    requires |p.mapping| == |source| && from < |source| && p.mapping[from] == NONE && p.count < |p.types| < NONE + 1
    requires q == Progress(p.count + 1, p.types, p.mapping[from := p.count])
    requires Since(source, q, r, p.count) && Copy(r.mapping, source[from], r.types[p.count])
    ensures Since(source, p, r, p.count)
  {
    PlacedOne(p.mapping, from, p.count);
    CopyWithin(r.mapping, source[from], r.types[p.count]);
    hide Copy, Placed, Within;
  }

  /** The state of one cross-graph copy: the destination graph, and where each
      source type went. */
  class Cloner {
    const source: seq<Node>
    const capacity: nat
    var types: seq<Node>
    var count: nat
    var mapping: seq<nat>

    constructor (source: seq<Node>, capacity: nat, types: seq<Node>, count: nat, mapping: seq<nat>)
      ensures this.source == source && this.capacity == capacity && this.types == types && this.count == count
      ensures this.mapping == mapping
    {
      this.source, this.capacity, this.types, this.count, this.mapping := source, capacity, types, count, mapping;
    }

    ghost predicate Valid()
      reads this
    {
      && |mapping| == |source| && count <= capacity == |types| <= NONE
      && (forall s :: 0 <= s < |mapping| && mapping[s] != NONE ==> mapping[s] < count)
      && Injective(mapping)
      && (forall s :: 0 <= s < |source| ==> NodeOk(source[s]))
    }

    ghost function Now(): Progress
      reads this
    {
      Progress(count, types, mapping)
    }

    /** Copies what `ref` refers to, once, and renames the reference. */
    method CloneRef(ref: Ref, depth: nat) returns (ok: bool, out: Ref)
      requires Valid()
      modifies this
      ensures ok ==> Valid() && Since(source, old(Now()), Now(), old(count))
      ensures ok ==> Mapped(mapping, ref) && out == Renamed(mapping, ref)
      decreases MAX_DEPTH + 1 - depth, 0
    {
      out := ref;
      ghost var p := Now();
      SinceStart(source, p, count);
      if ref.Inline? {
        return true, ref;
      }
      if ref.index >= |source| {
        return false, ref;
      }
      var from := ref.index;
      var target := mapping[from];
      if target == NONE {
        if depth >= MAX_DEPTH || count >= capacity {
          return false, ref;
        }
        target := count;
        count := count + 1;
        mapping := mapping[from := target];
        ghost var q := Now();
        ok := CloneNode(target, from, depth + 1);
        if !ok {
          return;
        }
        SinceOpened(source, p, q, Now(), from);
        assert Extends(q.mapping, mapping);
      }
      return true, Indexed(target);
    }

    /** Copies the type `from` into the slot `to`, with everything it refers to. */
    method CloneNode(to: nat, from: nat, depth: nat) returns (ok: bool)
      requires Valid() && to < count && from < |source| && mapping[from] == to
      modifies this
      ensures ok ==> Valid() && Since(source, old(Now()), Now(), to) && Copy(mapping, source[from], types[to])
      decreases MAX_DEPTH + 1 - depth, 1
    {
      hide Since, Extends, Copy, Injective, RefsDone, NodeOk;
      var node := source[from];
      ghost var p := Now();
      if depth > MAX_DEPTH || node.kind.Undefined? || node.kind.Instance? {
        return false;
      }
      SinceStart(source, p, to);
      types := types[to := node];
      SinceWrite(source, p, p, to, node);
      if Leaf(node.kind) {
        if node.kind.Resource? {
          SinceWrite(source, p, Now(), to, node.(alias := true));
          types := types[to := node.(alias := true)];
        }
        LeafCopy(mapping, node, types[to]);
        return true;
      }
      var i := 0;
      RefsStart(mapping, node.refs);
      while i < |node.refs|
        invariant 0 <= i <= |node.refs| && Valid() && to < p.count <= count && |types| == |p.types|
        invariant Since(source, p, Now(), to)
        invariant types[to] == node.(refs := types[to].refs) && RefsDone(mapping, node.refs, types[to].refs, i)
      {
        ghost var q := Now();
        var ref;
        RefsNext(mapping, node.refs, types[to].refs, i);
        ok, ref := CloneRef(types[to].refs[i], depth);
        if !ok {
          return;
        }
        SinceChain(source, p, q, Now(), to);
        SinceLengths(source, q, Now(), q.count);
        RefsStep(q.mapping, mapping, node.refs, types[to].refs, i, ref);
        SinceWrite(source, p, Now(), to, types[to].(refs := types[to].refs[i := ref]));
        types := types[to := types[to].(refs := types[to].refs[i := ref])];
        i := i + 1;
      }
      RefsCopy(mapping, node, types[to]);
      return true;
    }
  }

  predicate Nodes(g: seq<Node>) {
    forall i :: 0 <= i < |g| ==> NodeOk(g[i])
  }

  lemma {:induction false} PlacedNone(n: nat)
    ensures Placed(Unplaced(n)) == 0
  {
    if n > 0 {
      PlacedNone(n - 1);
      assert Unplaced(n)[..n - 1] == Unplaced(n - 1);
    }
  }

  function Unplaced(n: nat): (m: seq<nat>)
    ensures |m| == n && forall i :: 0 <= i < n ==> m[i] == NONE
  {
    seq(n, _ => NONE)
  }

  /** Every copy but the first lies in the new part of the graph. */
  predicate NewPlaces(m: seq<nat>, from: nat, count: nat, newCount: nat) {
    forall s :: 0 <= s < |m| && s != from && m[s] != NONE ==> count <= m[s] < newCount
  }

  /** After the copy, every type that found a place is faithfully there. */
  lemma {:induction false} ClonedFaithful(source: seq<Node>, p: Progress, q: Progress, to: nat, from: nat)
    requires from < |source| && to < p.count <= |p.types| && p.mapping == Unplaced(|source|)[from := to] && to != NONE
    requires Since(source, p, q, to) && Copy(q.mapping, source[from], q.types[to])
    ensures Faithful(source, q.types[..q.count], q.mapping) && q.mapping[from] == to && q.count - p.count < |source|
    ensures NewPlaces(q.mapping, from, p.count, q.count)
    ensures forall i :: i == to || p.count <= i < q.count ==> Within(q.types[i], q.mapping)
  {
    CopyWithin(q.mapping, source[from], q.types[to]);
    PlacedNone(|source|);
    PlacedOne(Unplaced(|source|), from, to);
    hide Copy, Placed, Within;
    assert q.mapping[from] == to;
    forall s | 0 <= s < |source| && q.mapping[s] != NONE
      ensures q.mapping[s] < q.count && Copy(q.mapping, source[s], q.types[q.mapping[s]])
    {
      assert s != from ==> p.mapping[s] == NONE;
    }
  }

  /** `clone_cross_graph`: on success the type at `to` means what `from` means in
      the source, to any depth; no other existing type of the destination changed,
      and fewer types were added than the source has. */
  method CloneGraph(destination: seq<Node>, to: nat, source: seq<Node>, from: nat)
    returns (ok: bool, result: seq<Node>, ghost mapping: seq<nat>)
    requires Nodes(source)
    ensures ok ==> to < |destination| && from < |source|
    ensures ok ==> Faithful(source, result, mapping) && mapping[from] == to
    ensures ok ==> |destination| <= |result| < |destination| + |source| <= NONE
    ensures ok ==> forall i :: 0 <= i < |destination| && i != to ==> result[i] == destination[i]
    ensures ok ==> NewPlaces(mapping, from, |destination|, |result|)
    ensures ok ==> forall i :: i == to || |destination| <= i < |result| ==> Within(result[i], mapping)
    ensures ok ==> forall n: nat :: Unfold(result, Indexed(to), n) == Unfold(source, Indexed(from), n)
  {
    result, mapping := destination, [];
    if to >= |destination| || from >= |source| || |source| + |destination| > NONE {
      return false, destination, [];
    }
    var capacity := |destination| + |source|;
    var blank := Node(Undefined, 0, [], false);
    var c :=
      new Cloner(source, capacity, destination + seq(|source|, _ => blank), |destination|,
      Unplaced(|source|)[from := to]);
    ghost var p := c.Now();
    ok := c.CloneNode(to, from, 0);
    if ok {
      ClonedFaithful(source, p, c.Now(), to, from);
      result, mapping := c.types[..c.count], c.mapping;
      forall n: nat
        ensures Unfold(result, Indexed(to), n) == Unfold(source, Indexed(from), n)
      {
        FaithfulMeaning(source, result, mapping, Indexed(from), n);
      }
    }
  }

  // ---------------------------------------------------------------- compaction

  function Renumber(r: Ref, reserved: nat, delta: nat): Ref
    requires delta <= reserved
  {
    if r.Indexed? && r.index >= reserved then Indexed(r.index - delta) else r
  }

  function RenumberNode(n: Node, reserved: nat, delta: nat): (r: Node)
    requires delta <= reserved
    ensures |r.refs| == |n.refs| && r == n.(refs := r.refs)
    ensures forall i :: 0 <= i < |n.refs| ==> r.refs[i] == Renumber(n.refs[i], reserved, delta)
  {
    n.(refs := seq(|n.refs|, i requires 0 <= i < |n.refs| => Renumber(n.refs[i], reserved, delta)))
  }

  /** The graph without the unused slots between `serialized` and `reserved`. */
  function Compacted(g: seq<Node>, serialized: nat, reserved: nat): (r: seq<Node>)
    requires serialized <= reserved <= |g|
    ensures |r| == |g| - (reserved - serialized)
    ensures forall i :: 0 <= i < |r| ==>
              r[i] ==
                RenumberNode(g[if i < serialized then i else i + (reserved - serialized)], reserved,
                reserved - serialized)
  {
    var kept := g[..serialized] + g[reserved..];
    seq(|kept|, i requires 0 <= i < |kept| => RenumberNode(kept[i], reserved, reserved - serialized))
  }

  /** A reference that survives compaction: not into the unused slots, not out of the graph. */
  predicate Survives(r: Ref, serialized: nat, reserved: nat, count: nat) {
    r.Indexed? ==> r.index < serialized || reserved <= r.index < count
  }

  /** Decoders only refer to types that were decoded before or are auxiliary. */
  predicate NoGapRefs(g: seq<Node>, serialized: nat, reserved: nat) {
    forall i, k :: 0 <= i < |g| && (i < serialized || reserved <= i) && 0 <= k < |g[i].refs| ==>
      Survives(g[i].refs[k], serialized, reserved, |g|)
  }

  function Positions(count: nat, serialized: nat, reserved: nat): (m: seq<nat>)
    requires serialized <= reserved <= count
    ensures |m| == count
    ensures forall i :: 0 <= i < count ==>
              m[i] == if i < serialized then i else if i < reserved then NONE else i - (reserved - serialized)
  {
    seq(count, i requires 0 <= i < count => if i < serialized then i else if i < reserved then NONE
      else i - (reserved - serialized))
  }

  /** What stands at the new place of a kept type is its renumbered copy. */
  lemma {:induction false} CompactedCopy(g: seq<Node>, serialized: nat, reserved: nat, s: nat)
    requires serialized <= reserved <= |g| <= NONE && NoGapRefs(g, serialized, reserved)
    requires (s < serialized || reserved <= s < |g|)
    ensures var m, h := Positions(|g|, serialized, reserved), Compacted(g, serialized, reserved);
            m[s] < |h| && Copy(m, g[s], h[m[s]])
  {
    var m, h := Positions(|g|, serialized, reserved), Compacted(g, serialized, reserved);
    assert h[m[s]] == RenumberNode(g[s], reserved, reserved - serialized);
    forall k | 0 <= k < |g[s].refs|
      ensures Mapped(m, g[s].refs[k]) && h[m[s]].refs[k] == Renamed(m, g[s].refs[k])
    {
      assert Survives(g[s].refs[k], serialized, reserved, |g|);
    }
  }

  /** Compaction keeps the meaning of every serialized and every auxiliary type. */
  lemma {:induction false} CompactionKeeps(g: seq<Node>, serialized: nat, reserved: nat, i: nat, n: nat)
    requires serialized <= reserved <= |g| <= NONE && NoGapRefs(g, serialized, reserved)
    requires i < serialized || reserved <= i < |g|
    ensures Unfold(Compacted(g, serialized, reserved), Renumber(Indexed(i), reserved, reserved - serialized), n) ==
              Unfold(g, Indexed(i), n)
  {
    hide Copy, NoGapRefs;
    var m, h := Positions(|g|, serialized, reserved), Compacted(g, serialized, reserved);
    forall s | 0 <= s < |g| && m[s] != NONE
      ensures m[s] < |h| && Copy(m, g[s], h[m[s]])
    {
      CompactedCopy(g, serialized, reserved, s);
    }
    FaithfulMeaning(g, h, m, Indexed(i), n);
  }

  /** Renumbers the references of one type. */
  method RenumberRefs(node: Node, reserved: nat, delta: nat) returns (r: Node)
    requires delta <= reserved
    ensures r == RenumberNode(node, reserved, delta)
  {
    r := node;
    var j := 0;
    while j < |node.refs|
      invariant 0 <= j <= |node.refs| && |r.refs| == |node.refs| && r == node.(refs := r.refs)
      invariant forall k :: 0 <= k < |node.refs| ==>
                  r.refs[k] == if k < j then Renumber(node.refs[k], reserved, delta) else node.refs[k]
    {
      if r.refs[j].Indexed? && r.refs[j].index >= reserved {
        r := r.(refs := r.refs[j := Indexed(r.refs[j].index - delta)]);
      }
      j := j + 1;
    }
    assert r.refs == RenumberNode(node, reserved, delta).refs;
  }

  /** `compact_alias_graph`, in place: moves the auxiliary types down and renumbers. */
  method Compact(types: array<Node>, count: nat, serialized: nat, reserved: nat) returns (newCount: nat)
    requires serialized <= reserved <= count <= types.Length
    modifies types
    ensures newCount == count - (reserved - serialized)
    ensures types[..newCount] == Compacted(old(types[..count]), serialized, reserved)
  {
    newCount := MoveDown(types, count, serialized, reserved);
    ghost var moved := types[..newCount];
    var delta := reserved - serialized;
    var i := 0;
    while i < newCount
      invariant 0 <= i <= newCount
      invariant forall k :: 0 <= k < newCount ==>
                  types[k] == if k < i then RenumberNode(moved[k], reserved, delta) else moved[k]
    {
      var node := RenumberRefs(types[i], reserved, delta);
      types[i] := node;
      i := i + 1;
    }
    assert types[..newCount] == Compacted(old(types[..count]), serialized, reserved);
  }

  /** The `memmove` over the unused slots. */
  method MoveDown(types: array<Node>, count: nat, serialized: nat, reserved: nat) returns (newCount: nat)
    requires serialized <= reserved <= count <= types.Length
    modifies types
    ensures newCount == count - (reserved - serialized)
    ensures types[..newCount] == old(types[..serialized]) + old(types[reserved..count])
  {
    ghost var before := types[..];
    var delta, i := reserved - serialized, reserved;
    while i < count
      invariant reserved <= i <= count
      invariant types[..i - delta] == before[..serialized] + before[reserved..i]
      invariant types[i..count] == before[i..count]
    {
      ghost var done, rest := types[..i - delta], types[i..count];
      var node := types[i];
      assert node == before[i];
      types[i - delta] := node;
      assert types[..i + 1 - delta] == done + [node];
      assert before[reserved..i + 1] == before[reserved..i] + [node];
      assert types[i + 1..count] == rest[1..];
      i := i + 1;
    }
    newCount := count - delta;
  }
}
