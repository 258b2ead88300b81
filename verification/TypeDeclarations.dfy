/**
  Decoding the types of a component (src/component_binary.c): the entries of the
  type, alias and export sections are laid down one after the other, copies of
  other graphs' types bring auxiliary types behind the reserved slots, and the
  slots that no entry used are closed at the end.
 */
module TypeDeclarations {
  import opened Common
  import opened TypeGraph

  /** One entry of a section. `Other` entries define no type. */
  datatype Entry =
    | Declare(node: Node)
    | Again(source: nat)
    | Alias(graph: seq<Node>, from: nat)
    | Other

  /** The entries that define types; the k-th of them defines type k. */
  function Types(entries: seq<Entry>): (ts: seq<Entry>)
    ensures |ts| <= |entries|
  {
    if entries == [] then []
    else
      var last := entries[|entries| - 1];
      Types(entries[..|entries| - 1]) + if last.Other? then [] else [last]
  }

  lemma {:induction false} TypesStep(entries: seq<Entry>, i: nat)
    requires i < |entries|
    ensures entries[i].Other? ==> Types(entries[..i + 1]) == Types(entries[..i])
    ensures !entries[i].Other? ==> Types(entries[..i + 1]) == Types(entries[..i]) + [entries[i]]
  {
    assert entries[..i + 1][..i] == entries[..i];
  }

  // ---------------------------------------------------------------- meaning

  /** What the reference `r` means after the definitions `ts`, read off the
      definitions alone: a definition sees the ones before it, a repeated type
      means what the original means, an alias what the type means in its own graph. */
  function Means(ts: seq<Entry>, r: Ref, n: nat): (t: Tree)
    decreases n, 1, |ts|
  {
    if r.Inline? then Basic(r.code)
    else if n == 0 then Cut
    else if r.index >= |ts| then Missing
    else match ts[r.index]
      case Declare(node) => Branch(node.kind, node.detail, MeansAll(ts[..r.index], node.refs, n - 1))
      case Again(source) => Means(ts[..r.index], Indexed(source), n)
      case Alias(graph, from) => Unfold(graph, Indexed(from), n)
      case Other => Missing
  }

  function MeansAll(ts: seq<Entry>, refs: seq<Ref>, n: nat): (trees: seq<Tree>)
    decreases n, 2, |refs|
  {
    if refs == [] then [] else [Means(ts, refs[0], n)] + MeansAll(ts, refs[1..], n)
  }

  /** Later definitions do not change what earlier ones mean. */
  lemma {:induction false} MeansEarlier(ts: seq<Entry>, d: Entry, k: nat, n: nat)
    requires k < |ts|
    ensures Means(ts + [d], Indexed(k), n) == Means(ts, Indexed(k), n)
  {
    assert (ts + [d])[..k] == ts[..k];
  }

  // ---------------------------------------------------------------- the graph so far

  /** A type that stays: defined already, or auxiliary. */
  predicate Kept(i: nat, next: nat, reserved: nat) {
    i < next || reserved <= i
  }

  /** The kept types of `g` stand unchanged in `h`. */
  predicate Stands(g: seq<Node>, h: seq<Node>, next: nat, reserved: nat) {
    && next <= reserved <= |g| <= |h|
    && (forall i :: 0 <= i < |g| && Kept(i, next, reserved) ==> h[i] == g[i])
  }

  function Fixed(count: nat, next: nat, reserved: nat): (m: seq<nat>)
    ensures |m| == count && forall i :: 0 <= i < count ==> m[i] == if Kept(i, next, reserved) then i else NONE
  {
    seq(count, i requires 0 <= i < count => if Kept(i, next, reserved) then i else NONE)
  }

  /** Types that stand mean what they meant. */
  lemma {:induction false} StandingMeaning(g: seq<Node>, h: seq<Node>, next: nat, reserved: nat, r: Ref, n: nat)
    requires Stands(g, h, next, reserved) && NoGapRefs(g, next, reserved) && |g| <= NONE
    requires Survives(r, next, reserved, |g|)
    ensures Unfold(h, r, n) == Unfold(g, r, n)
  {
    var m := Fixed(|g|, next, reserved);
    forall s | 0 <= s < |g| && m[s] != NONE
      ensures m[s] < |h| && Copy(m, g[s], h[m[s]])
    {
      forall k | 0 <= k < |g[s].refs|
        ensures Mapped(m, g[s].refs[k]) && h[m[s]].refs[k] == Renamed(m, g[s].refs[k])
      {
        assert Survives(g[s].refs[k], next, reserved, |g|);
      }
    }
    FaithfulMeaning(g, h, m, r, n);
  }

  /** Type `k` of `g` means what definition `k` of `ts` says. */
  ghost predicate Right(g: seq<Node>, ts: seq<Entry>, k: nat) {
    forall n: nat :: Unfold(g, Indexed(k), n) == Means(ts, Indexed(k), n)
  }

  /** The graph after the definitions `ts`: all of them mean what they should, and
      nothing refers to a slot that is still unused. */
  ghost predicate Decoded(g: seq<Node>, ts: seq<Entry>, reserved: nat) {
    && |ts| <= reserved <= |g| <= NONE
    && NoGapRefs(g, |ts|, reserved)
    && (forall k :: 0 <= k < |ts| ==> Right(g, ts, k))
  }

  /** A step that leaves the kept types alone and gets the new one right. */
  lemma {:induction false} DecodedStep(g: seq<Node>, h: seq<Node>, ts: seq<Entry>, d: Entry, reserved: nat)
    requires Decoded(g, ts, reserved) && Stands(g, h, |ts|, reserved) && |ts| < reserved && |h| <= NONE
    requires NoGapRefs(h, |ts| + 1, reserved) && Right(h, ts + [d], |ts|)
    ensures Decoded(h, ts + [d], reserved)
  {
    forall k | 0 <= k < |ts|
      ensures Right(h, ts + [d], k)
    {
      forall n: nat
        ensures Unfold(h, Indexed(k), n) == Means(ts + [d], Indexed(k), n)
      {
        assert Right(g, ts, k);
        StandingMeaning(g, h, |ts|, reserved, Indexed(k), n);
        MeansEarlier(ts, d, k, n);
      }
    }
  }

  // ---------------------------------------------------------------- declarations

  /** The references of a declaration go backwards. */
  predicate Backward(refs: seq<Ref>, id: nat) {
    forall k :: 0 <= k < |refs| && refs[k].Indexed? ==> refs[k].index < id
  }

  lemma {:induction false} PlacedGap(g: seq<Node>, next: nat, reserved: nat, node: Node)
    requires next < reserved <= |g| && NoGapRefs(g, next, reserved)
    requires forall k :: 0 <= k < |node.refs| ==> Survives(node.refs[k], next, reserved, |g|)
    ensures NoGapRefs(g[next := node], next + 1, reserved) && Stands(g, g[next := node], next, reserved)
  {
    var h := g[next := node];
    forall i, k | 0 <= i < |h| && (i < next + 1 || reserved <= i) && 0 <= k < |h[i].refs|
      ensures Survives(h[i].refs[k], next + 1, reserved, |h|)
    {
      assert i != next ==> Survives(g[i].refs[k], next, reserved, |g|);
    }
  }

  /** Backward references mean in the graph what they mean in the definitions. */
  lemma {:induction false} RefsRight(g: seq<Node>, h: seq<Node>, ts: seq<Entry>, reserved: nat, refs: seq<Ref>, n: nat)
    requires Decoded(g, ts, reserved) && Stands(g, h, |ts|, reserved) && Backward(refs, |ts|)
    ensures Children(h, refs, n) == MeansAll(ts, refs, n)
    decreases |refs|
  {
    if refs != [] {
      if refs[0].Indexed? {
        assert Right(g, ts, refs[0].index);
      }
      StandingMeaning(g, h, |ts|, reserved, refs[0], n);
      RefsRight(g, h, ts, reserved, refs[1..], n);
    }
  }

  lemma {:induction false} DeclareDecoded(g: seq<Node>, ts: seq<Entry>, reserved: nat, node: Node)
    requires Decoded(g, ts, reserved) && |ts| < reserved && Backward(node.refs, |ts|)
    ensures Decoded(g[|ts| := node], ts + [Declare(node)], reserved)
  {
    var h, us := g[|ts| := node], ts + [Declare(node)];
    PlacedGap(g, |ts|, reserved, node);
    forall n: nat
      ensures Unfold(h, Indexed(|ts|), n) == Means(us, Indexed(|ts|), n)
    {
      if n > 0 {
        RefsRight(g, h, ts, reserved, node.refs, n - 1);
        assert us[..|ts|] == ts;
      }
    }
    DecodedStep(g, h, ts, Declare(node), reserved);
  }

  /** The references of a type that stands mean the same in both graphs. */
  lemma {:induction false} ChildrenStand(g: seq<Node>, h: seq<Node>, next: nat, reserved: nat, refs: seq<Ref>, n: nat)
    requires Stands(g, h, next, reserved) && NoGapRefs(g, next, reserved) && |g| <= NONE
    requires forall k :: 0 <= k < |refs| ==> Survives(refs[k], next, reserved, |g|)
    ensures Children(h, refs, n) == Children(g, refs, n)
    decreases |refs|
  {
    if refs != [] {
      StandingMeaning(g, h, next, reserved, refs[0], n);
      ChildrenStand(g, h, next, reserved, refs[1..], n);
    }
  }

  lemma {:induction false} AgainDecoded(g: seq<Node>, ts: seq<Entry>, reserved: nat, source: nat, node: Node)
    requires Decoded(g, ts, reserved) && source < |ts| < reserved
    requires node == g[source] || node == g[source].(alias := true)
    ensures Decoded(g[|ts| := node], ts + [Again(source)], reserved)
  {
    var h, us := g[|ts| := node], ts + [Again(source)];
    forall k | 0 <= k < |node.refs|
      ensures Survives(node.refs[k], |ts|, reserved, |g|)
    {
      assert Survives(g[source].refs[k], |ts|, reserved, |g|);
    }
    PlacedGap(g, |ts|, reserved, node);
    assert Right(g, ts, source) && us[..|ts|] == ts;
    forall n: nat
      ensures Unfold(h, Indexed(|ts|), n) == Means(us, Indexed(|ts|), n)
    {
      if n > 0 {
        ChildrenStand(g, h, |ts|, reserved, node.refs, n - 1);
        assert Unfold(h, Indexed(|ts|), n) == Unfold(g, Indexed(source), n) == Means(ts, Indexed(source), n);
      }
    }
    DecodedStep(g, h, ts, Again(source), reserved);
  }

  /** A copy of another graph's type refers to no unused slot: everything that came
      with it lies behind the reserved slots. */
  lemma {:induction false} CloneGap(g: seq<Node>, h: seq<Node>, next: nat, reserved: nat, m: seq<nat>, from: nat)
    requires next < reserved <= |g| <= |h| && NoGapRefs(g, next, reserved)
    requires from < |m| && m[from] == next && NewPlaces(m, from, |g|, |h|)
    requires forall i :: 0 <= i < |g| && i != next ==> h[i] == g[i]
    requires forall i :: i == next || |g| <= i < |h| ==> Within(h[i], m)
    ensures NoGapRefs(h, next + 1, reserved)
  {
    forall i, k | 0 <= i < |h| && (i < next + 1 || reserved <= i) && 0 <= k < |h[i].refs|
      ensures Survives(h[i].refs[k], next + 1, reserved, |h|)
    {
      if i < |g| && i != next {
        assert Survives(g[i].refs[k], next, reserved, |g|);
      } else {
        assert Within(h[i], m);
      }
    }
  }

  lemma {:induction false} AliasDecoded(
    g: seq<Node>, h: seq<Node>, ts: seq<Entry>, reserved: nat, source: seq<Node>, from: nat, m: seq<nat>)
    requires Decoded(g, ts, reserved) && |ts| < reserved && |g| <= |h| <= NONE
    requires from < |m| && m[from] == |ts| && NewPlaces(m, from, |g|, |h|)
    requires forall i :: 0 <= i < |g| && i != |ts| ==> h[i] == g[i]
    requires forall i :: i == |ts| || |g| <= i < |h| ==> Within(h[i], m)
    requires forall n: nat :: Unfold(h, Indexed(|ts|), n) == Unfold(source, Indexed(from), n)
    ensures Decoded(h, ts + [Alias(source, from)], reserved)
  {
    CloneGap(g, h, |ts|, reserved, m, from);
    DecodedStep(g, h, ts, Alias(source, from), reserved);
  }

  /** A type without references needs no other type. */
  lemma {:induction false} LeafDecoded(g: seq<Node>, ts: seq<Entry>, reserved: nat, source: seq<Node>, from: nat,
      node: Node)
    requires Decoded(g, ts, reserved) && |ts| < reserved && from < |source|
    requires source[from].refs == [] && (node == source[from] || node == source[from].(alias := true))
    ensures Decoded(g[|ts| := node], ts + [Alias(source, from)], reserved)
  {
    PlacedGap(g, |ts|, reserved, node);
    var h, us := g[|ts| := node], ts + [Alias(source, from)];
    forall n: nat
      ensures Unfold(h, Indexed(|ts|), n) == Means(us, Indexed(|ts|), n)
    {
      assert n > 0 ==> Children(h, node.refs, n - 1) == [] == Children(source, source[from].refs, n - 1);
    }
    DecodedStep(g, h, ts, Alias(source, from), reserved);
  }

  // ---------------------------------------------------------------- decoding

  /** Nodes are well formed in every entry. */
  predicate EntryOk(e: Entry) {
    match e
    case Declare(node) => NodeOk(node)
    case Alias(graph, _) => Nodes(graph)
    case _ => true
  }

  /** `clone_type_between_graphs` within one graph, as `clone_local_type` calls it. */
  method Repeat(g: seq<Node>, id: nat, source: nat) returns (ok: bool, h: seq<Node>)
    requires id < |g|
    ensures ok <==> source < id && g[id].kind.Undefined? && !g[source].kind.Undefined? && !g[source].kind.Instance?
    ensures !ok ==> h == g
    ensures ok ==> h == g[id := if g[source].kind.Resource? then g[source].(alias := true) else g[source]]
  {
    if source >= id || !g[id].kind.Undefined? || g[source].kind.Undefined? || g[source].kind.Instance? {
      return false, g;
    }
    if g[source].kind.Resource? {
      return true, g[id := g[source].(alias := true)];
    }
    return true, g[id := g[source]];
  }

  /** `clone_type_between_graphs` from another graph: on success the type means
      here what it means there. */
  method Import(g: seq<Node>, ghost ts: seq<Entry>, id: nat, reserved: nat, source: seq<Node>, from: nat)
    returns (ok: bool, h: seq<Node>)
    requires Decoded(g, ts, reserved) && |ts| == id < reserved && Nodes(source)
    ensures ok ==> Decoded(h, ts + [Alias(source, from)], reserved)
    ensures ok ==> forall i :: 0 <= i < |g| && i != id ==> i < |h| && h[i] == g[i]
  {
    h := g;
    if from >= |source| || source[from].kind.Undefined? || source[from].kind.Instance? {
      return false, g;
    }
    var node := source[from];
    if Leaf(node.kind) {
      if !g[id].kind.Undefined? {
        return false, g;
      }
      if node.kind.Resource? {
        node := node.(alias := true);
      }
      assert NodeOk(source[from]);
      LeafDecoded(g, ts, reserved, source, from, node);
      return true, g[id := node];
    }
    ghost var m;
    ok, h, m := CloneGraph(g, id, source, from);
    if ok {
      AliasDecoded(g, h, ts, reserved, source, from, m);
    }
  }

  /** Slots that no entry has used are undefined. */
  predicate Unused(g: seq<Node>, next: nat, reserved: nat) {
    reserved <= |g| && forall i :: next <= i < reserved ==> g[i].kind.Undefined?
  }

  /** One entry that defines type `id`. */
  method Define(g: seq<Node>, ghost ts: seq<Entry>, id: nat, reserved: nat, entry: Entry)
      returns (ok: bool, h: seq<Node>)
    requires Decoded(g, ts, reserved) && |ts| == id < reserved && EntryOk(entry) && !entry.Other?
    requires Unused(g, id, reserved)
    ensures ok ==> Decoded(h, ts + [entry], reserved) && Unused(h, id + 1, reserved)
    ensures entry.Declare? ==> (ok <==> Backward(entry.node.refs, id))
    ensures entry.Again? ==>
              (ok <==> entry.source < id && !g[entry.source].kind.Undefined? && !g[entry.source].kind.Instance?)
  {
    match entry
    case Declare(node) =>
      var i := 0;
      while i < |node.refs|
        invariant 0 <= i <= |node.refs| && Backward(node.refs[..i], id)
      {
        if node.refs[i].Indexed? && node.refs[i].index >= id {
          return false, g;
        }
        i := i + 1;
      }
      assert node.refs[..i] == node.refs;
      DeclareDecoded(g, ts, reserved, node);
      return true, g[id := node];
    case Again(source) =>
      ok, h := Repeat(g, id, source);
      if ok {
        AgainDecoded(g, ts, reserved, source, h[id]);
      }
    case Alias(source, from) =>
      ok, h := Import(g, ts, id, reserved, source, from);
  }

  lemma {:induction false} NothingDecoded(g: seq<Node>, reserved: nat)
    requires |g| == reserved <= NONE
    ensures Decoded(g, [], reserved)
  {
  }

  /** Lays down every entry. */
  method DefineAll(entries: seq<Entry>) returns (ok: bool, g: seq<Node>, next: nat)
    requires |entries| <= NONE && forall i :: 0 <= i < |entries| ==> EntryOk(entries[i])
    ensures ok ==> Decoded(g, Types(entries), |entries|) && next == |Types(entries)|
  {
    var reserved := |entries|;
    g, next := seq(reserved, _ => Node(Undefined, 0, [], false)), 0;
    NothingDecoded(g, reserved);
    var i := 0;
    while i < |entries|
      invariant 0 <= i <= |entries| && next == |Types(entries[..i])| <= i
      invariant Decoded(g, Types(entries[..i]), reserved) && Unused(g, next, reserved)
    {
      TypesStep(entries, i);
      if !entries[i].Other? {
        ok, g := Define(g, Types(entries[..i]), next, reserved, entries[i]);
        if !ok {
          return;
        }
        next := next + 1;
      }
      i := i + 1;
    }
    assert entries[..i] == entries;
    return true, g, next;
  }

  lemma {:induction false} CompactedRight(g: seq<Node>, ts: seq<Entry>, reserved: nat, k: nat)
    requires Decoded(g, ts, reserved) && k < |ts|
    ensures Right(Compacted(g, |ts|, reserved), ts, k)
  {
    forall n: nat
      ensures Unfold(Compacted(g, |ts|, reserved), Indexed(k), n) == Means(ts, Indexed(k), n)
    {
      CompactionKeeps(g, |ts|, reserved, k, n);
      assert Right(g, ts, k);
    }
  }

  /** `decode_component_semantics`, as far as types go: after any series of
      declarations, repeated types and aliases, and the final compaction, type k
      means what the k-th definition says, to any depth, and no slot is left unused
      among the serialized types. */
  method DecodeTypes(entries: seq<Entry>) returns (ok: bool, result: seq<Node>)
    requires forall i :: 0 <= i < |entries| ==> EntryOk(entries[i])
    ensures ok ==> |Types(entries)| <= |result|
    ensures ok ==> forall k :: 0 <= k < |Types(entries)| ==> Right(result, Types(entries), k)
  {
    result := [];
    if |entries| > NONE {
      return false, [];
    }
    var g, next;
    ok, g, next := DefineAll(entries);
    if ok {
      var types := new Node[|g|](i requires 0 <= i < |g| => g[i]);
      var count := Compact(types, |g|, next, |entries|);
      result := types[..count];
      assert types[..count] == Compacted(g, next, |entries|);
      forall k | 0 <= k < |Types(entries)|
        ensures Right(result, Types(entries), k)
      {
        CompactedRight(g, Types(entries), |entries|, k);
      }
    }
  }
}
