/**
  What comparing defined types amounts to (src/validate_composite.c): on a
  finalized context comparisons nest no deeper than the limit, equality of types
  is an equivalence and subtyping is reflexive and transitive.
 */
module TypeOrder {
  import opened Common
  import opened Bytes
  import opened ArtifactRecords
  import opened DefinedTypes

  // ---------------------------------------------------------------- layers

  /** Type `a` may refer to type `p`: inside its own group, or in a shallower layer. */
  predicate Below(ts: seq<FuncType>, depths: seq<nat>, a: nat, p: nat)
    requires a < |depths| <= |ts|
  {
    p < |depths| && (Start(ts, p) != Start(ts, a) ==> depths[p] < depths[a])
  }

  /** Everything that type `a` refers to is below it, and its group is one layer. */
  predicate Layer(ts: seq<FuncType>, depths: seq<nat>, a: nat)
    requires a < |depths| <= |ts|
  {
    var t := ts[a];
    && 1 <= depths[a] <= DEPENDENCY_LIMIT
    && Start(ts, a) >= 0 && t.groupOffset < t.groupCount && Start(ts, a) + t.groupCount <= |depths|
    && (t.super != MAX32 ==> Below(ts, depths, a, t.super))
    && (forall k :: 0 <= k < |ValuesOf(t)| && Named(ValuesOf(t)[k]) ==> Below(ts, depths, a, ValuesOf(t)[k].typeIndex))
  }

  /** Types `a` and `b` of one group agree on it. */
  predicate Together(ts: seq<FuncType>, depths: seq<nat>, a: nat, b: nat)
    requires a < |depths| <= |ts| && b < |depths|
  {
    Start(ts, a) <= b < Start(ts, a) + ts[a].groupCount ==>
      Start(ts, b) == Start(ts, a) && ts[b].groupCount == ts[a].groupCount && depths[b] == depths[a]
  }

  /** The first `|depths|` types form complete groups in layers. */
  ghost predicate Layered(ts: seq<FuncType>, depths: seq<nat>) {
    && |depths| <= |ts|
    && (forall a :: 0 <= a < |depths| ==> Layer(ts, depths, a))
    && (forall a, b :: 0 <= a < |depths| && 0 <= b < |depths| ==> Together(ts, depths, a, b))
  }

  // The folds find the depth.

  lemma {:induction false} ValuesBelow(vs: seq<ValueType>, k: nat, depths: seq<nat>, end: nat, depth: nat)
    requires k <= |vs| && |depths| <= end && ValuesDepth(vs, k, depths, end, depth).Some?
    ensures var d := ValuesDepth(vs, k, depths, end, depth).value;
            && d >= depth
            && (forall i :: k <= i < |vs| && Named(vs[i]) ==>
                  vs[i].typeIndex < end && (vs[i].typeIndex < |depths| ==> depths[vs[i].typeIndex] < d))
    decreases |vs| - k
  {
    if k < |vs| {
      var next := if Named(vs[k]) && vs[k].typeIndex < |depths| then Raise(depth, depths[vs[k].typeIndex]) else depth;
      ValuesBelow(vs, k + 1, depths, end, next);
    }
  }

  /** What the fold over members establishes of type `a`. */
  predicate MemberBelow(ts: seq<FuncType>, depths: seq<nat>, count: nat, a: nat, d: nat)
    requires |depths| <= a < |ts|
  {
    var t := ts[a];
    && t.groupOffset == a - |depths| && t.groupCount == count
    && (t.super != MAX32 && t.super < |depths| ==> depths[t.super] < d)
    && (forall i :: 0 <= i < |ValuesOf(t)| && Named(ValuesOf(t)[i]) ==>
          && ValuesOf(t)[i].typeIndex < |depths| + count
          && (ValuesOf(t)[i].typeIndex < |depths| ==> depths[ValuesOf(t)[i].typeIndex] < d))
  }

  /** All members from the `j`-th on. */
  predicate AllBelow(ts: seq<FuncType>, depths: seq<nat>, count: nat, j: nat, d: nat)
    requires |depths| + count <= |ts|
  {
    forall a :: |depths| + j <= a < |depths| + count ==> MemberBelow(ts, depths, count, a, d)
  }

  lemma {:induction false} MemberLater(ts: seq<FuncType>, depths: seq<nat>, count: nat, a: nat, d: nat, e: nat)
    requires |depths| <= a < |ts| && MemberBelow(ts, depths, count, a, d) && d <= e
    ensures MemberBelow(ts, depths, count, a, e)
  {
    hide ValuesOf;
  }

  lemma {:induction false} MembersBelow(ts: seq<FuncType>, depths: seq<nat>, count: nat, j: nat, depth: nat)
    requires j <= count && |depths| + count <= |ts| && MembersDepth(ts, depths, count, j, depth).Some?
    ensures var d := MembersDepth(ts, depths, count, j, depth).value;
            d >= depth && AllBelow(ts, depths, count, j, d)
    decreases count - j
  {
    hide ValuesOf;
    if j < count {
      var a := |depths| + j;
      var t := ts[a];
      var first := if t.super != MAX32 && t.super < |depths| then Raise(depth, depths[t.super]) else depth;
      ValuesBelow(ValuesOf(t), 0, depths, |depths| + count, first);
      var next := ValuesDepth(ValuesOf(t), 0, depths, |depths| + count, first).value;
      MembersBelow(ts, depths, count, j + 1, next);
      var d := MembersDepth(ts, depths, count, j, depth).value;
      assert MemberBelow(ts, depths, count, a, next);
      MemberLater(ts, depths, count, a, next, d);
    }
  }

  /** Supertypes come before their subtypes. */
  predicate SupersEarlier(ts: seq<FuncType>) {
    forall a :: 0 <= a < |ts| ==> ts[a].super == MAX32 || ts[a].super < a
  }

  lemma {:induction false} OldLayer(ts: seq<FuncType>, depths: seq<nat>, more: seq<nat>, a: nat)
    requires a < |depths| && |depths + more| <= |ts| && Layer(ts, depths, a)
    ensures Layer(ts, depths + more, a)
  {
    hide ValuesOf;
    var t := ts[a];
    forall k | 0 <= k < |ValuesOf(t)| && Named(ValuesOf(t)[k])
      ensures Below(ts, depths + more, a, ValuesOf(t)[k].typeIndex)
    {
      assert Below(ts, depths, a, ValuesOf(t)[k].typeIndex);
    }
  }

  lemma {:induction false} NewLayer(ts: seq<FuncType>, depths: seq<nat>, count: nat, d: nat, a: nat)
    requires SupersEarlier(ts) && |depths| <= a < |depths| + count <= |ts| && 1 <= d <= DEPENDENCY_LIMIT
    requires AllBelow(ts, depths, count, 0, d)
    ensures Layer(ts, depths + seq(count, _ => d), a)
  {
    var all := depths + seq(count, _ => d);
    assert MemberBelow(ts, depths, count, a, d);
    hide ValuesOf;
    forall p: nat | p < |all| && (p < |depths| ==> depths[p] < d)
      ensures Below(ts, all, a, p)
    {
      assert p >= |depths| ==> MemberBelow(ts, depths, count, p, d);
    }
  }

  lemma {:induction false} LayersGrow(ts: seq<FuncType>, depths: seq<nat>, count: nat, d: nat)
    requires Layered(ts, depths) && SupersEarlier(ts) && |depths| + count <= |ts| && 1 <= d <= DEPENDENCY_LIMIT
    requires AllBelow(ts, depths, count, 0, d)
    ensures Layered(ts, depths + seq(count, _ => d))
  {
    var more := seq(count, _ => d);
    var all := depths + more;
    hide ValuesOf;
    forall a | 0 <= a < |all|
      ensures Layer(ts, all, a)
    {
      if a < |depths| {
        assert Layer(ts, depths, a);
        OldLayer(ts, depths, more, a);
      } else {
        NewLayer(ts, depths, count, d, a);
      }
    }
    TogetherGrows(ts, depths, count, d);
  }

  lemma {:induction false} TogetherGrows(ts: seq<FuncType>, depths: seq<nat>, count: nat, d: nat)
    requires Layered(ts, depths) && |depths| + count <= |ts|
    requires AllBelow(ts, depths, count, 0, d)
    ensures var all := depths + seq(count, _ => d);
            forall a, b :: 0 <= a < |all| && 0 <= b < |all| ==> Together(ts, all, a, b)
  {
    hide ValuesOf;
    var all := depths + seq(count, _ => d);
    forall a, b | 0 <= a < |all| && 0 <= b < |all|
      ensures Together(ts, all, a, b)
    {
      if a < |depths| {
        assert Layer(ts, depths, a);
        assert b < |depths| ==> Together(ts, depths, a, b);
      } else {
        assert MemberBelow(ts, depths, count, a, d);
        assert b >= |depths| ==> MemberBelow(ts, depths, count, b, d);
      }
    }
  }

  /** The group loop leaves layers. */
  lemma {:induction false} GroupsLayered(ts: seq<FuncType>, depths: seq<nat>)
    requires Layered(ts, depths) && SupersEarlier(ts) && Groups(ts, depths).Fine?
    ensures Layered(ts, Groups(ts, depths).depths)
    decreases |ts| - |depths|
  {
    hide Layered, SupersEarlier, MembersDepth, BodiesOk;
    if |depths| < |ts| {
      var count := ts[|depths|].groupCount;
      MembersBelow(ts, depths, count, 0, 1);
      var d := MembersDepth(ts, depths, count, 0, 1).value;
      LayersGrow(ts, depths, count, d);
      GroupsLayered(ts, depths + seq(count, _ => d));
    }
  }

  // ---------------------------------------------------------------- how deep comparisons nest

  lemma {:induction false} RefSettled(ts: seq<FuncType>, depths: seq<nat>, a: nat, p: nat, q: nat, rg: int, f: nat,
      g: nat)
    requires Layered(ts, depths) && a < |depths| && f + 1 >= depths[a] && g + 1 >= depths[a] && Below(ts, depths, a, p)
    ensures SameRef(ts, p, q, Start(ts, a), rg, f) == SameRef(ts, p, q, Start(ts, a), rg, g)
    decreases f, 0
  {
    assert Layer(ts, depths, p);
    hide Layered, SameType, Layer;
    if q < |ts| && Start(ts, p) != Start(ts, a) && Start(ts, q) != rg {
      Settled(ts, depths, p, q, f - 1, g - 1);
    }
  }

  lemma {:induction false} ValueSettled(ts: seq<FuncType>, depths: seq<nat>, a: nat, k: nat, v: ValueType, rg: int,
      f: nat, g: nat)
    requires Layered(ts, depths) && a < |depths| && f + 1 >= depths[a] && g + 1 >= depths[a] && k < |ValuesOf(ts[a])|
    ensures SameValue(ts, ValuesOf(ts[a])[k], v, Start(ts, a), rg, f) ==
              SameValue(ts, ValuesOf(ts[a])[k], v, Start(ts, a), rg, g)
    decreases f, 1
  {
    assert Layer(ts, depths, a);
    hide ValuesOf, SameRef, Layered;
    if Named(ValuesOf(ts[a])[k]) {
      RefSettled(ts, depths, a, ValuesOf(ts[a])[k].typeIndex, v.typeIndex, rg, f, g);
    }
  }

  lemma {:induction false} MemberSettled(ts: seq<FuncType>, depths: seq<nat>, a: nat, t: FuncType, rg: int, f: nat,
      g: nat)
    requires Layered(ts, depths) && a < |depths| && f + 1 >= depths[a] && g + 1 >= depths[a]
    ensures SameMember(ts, ts[a], t, Start(ts, a), rg, f) == SameMember(ts, ts[a], t, Start(ts, a), rg, g)
    decreases f, 2
  {
    var s, lg := ts[a], Start(ts, a);
    if s.super != MAX32 {
      assert Layer(ts, depths, a);
      RefSettled(ts, depths, a, s.super, t.super, rg, f, g);
    }
    hide SameRef, Layered, SameValue;
    forall k | 0 <= k < |s.params| && k < |t.params|
      ensures SameValue(ts, s.params[k].semantic, t.params[k].semantic, lg, rg, f) ==
                SameValue(ts, s.params[k].semantic, t.params[k].semantic, lg, rg, g)
    {
      ValueSettled(ts, depths, a, k, t.params[k].semantic, rg, f, g);
    }
    forall k | 0 <= k < |s.results| && k < |t.results|
      ensures SameValue(ts, s.results[k].semantic, t.results[k].semantic, lg, rg, f) ==
                SameValue(ts, s.results[k].semantic, t.results[k].semantic, lg, rg, g)
    {
      ValueSettled(ts, depths, a, |s.params| + k, t.results[k].semantic, rg, f, g);
    }
    forall k | 0 <= k < |s.fields| && k < |t.fields|
      ensures SameValue(ts, s.fields[k].semantic, t.fields[k].semantic, lg, rg, f) ==
                SameValue(ts, s.fields[k].semantic, t.fields[k].semantic, lg, rg, g)
    {
      ValueSettled(ts, depths, a, |s.params| + |s.results| + k, t.fields[k].semantic, rg, f, g);
    }
    assert SameSuper(ts, s.super, t.super, lg, rg, f) == SameSuper(ts, s.super, t.super, lg, rg, g);
    assert SameTyped(ts, s.params, t.params, lg, rg, f) == SameTyped(ts, s.params, t.params, lg, rg, g);
    assert SameTyped(ts, s.results, t.results, lg, rg, f) == SameTyped(ts, s.results, t.results, lg, rg, g);
    assert SameFields(ts, s.fields, t.fields, lg, rg, f) == SameFields(ts, s.fields, t.fields, lg, rg, g) by {
      assert |s.fields| == |t.fields| ==>
          forall k :: 0 <= k < |s.fields| ==>
            SameField(ts, s.fields[k], t.fields[k], lg, rg, f) == SameField(ts, s.fields[k], t.fields[k], lg, rg, g);
    }
  }

  /** Comparing a type of depth d nests at most d - 1 comparisons of earlier types:
      more room changes nothing. */
  lemma {:induction false} Settled(ts: seq<FuncType>, depths: seq<nat>, a: nat, b: nat, f: nat, g: nat)
    requires Layered(ts, depths) && a < |depths| && f + 1 >= depths[a] && g + 1 >= depths[a]
    ensures SameType(ts, a, b, f) == SameType(ts, a, b, g)
    decreases f, 3
  {
    if b < |ts| {
      var lg, rg, count := Start(ts, a), Start(ts, b), ts[a].groupCount;
      assert Layer(ts, depths, a);
      if 0 <= rg && rg + count <= |ts| {
        forall k | 0 <= k < count
          ensures SameAt(ts, lg, rg, k, f) == SameAt(ts, lg, rg, k, g)
        {
          assert Together(ts, depths, a, lg + k);
          MemberSettled(ts, depths, lg + k, ts[rg + k], rg, f, g);
        }
      }
      assert SameGroups(ts, lg, rg, count, f) == SameGroups(ts, lg, rg, count, g);
    }
  }

  /** In a finalized context the result of a comparison does not depend on how deep
      it may nest, as long as the limit is allowed. */
  lemma {:induction false} LimitSuffices(ts: seq<FuncType>, a: nat, b: nat, deeper: nat)
    requires SupersEarlier(ts) && Groups(ts, []).Fine? && a < |ts| && deeper >= DEPENDENCY_LIMIT
    ensures SameType(ts, a, b, deeper) == Same(ts, a, b)
  {
    hide SameType, Groups;
    GroupsLayered(ts, []);
    assert Layer(ts, Groups(ts, []).depths, a);
    Settled(ts, Groups(ts, []).depths, a, b, deeper, DEPENDENCY_LIMIT);
  }

  // ---------------------------------------------------------------- an equivalence

  lemma {:induction false} SameBack(ts: seq<FuncType>, a: nat, b: nat, f: nat)
    requires SameType(ts, a, b, f)
    ensures SameType(ts, b, a, f)
    decreases f, 3
  {
    if a != b {
      var lg, rg, count := Start(ts, a), Start(ts, b), ts[a].groupCount;
      forall k | 0 <= k < count
        ensures SameAt(ts, rg, lg, k, f)
      {
        assert SameAt(ts, lg, rg, k, f);
        MemberBack(ts, ts[lg + k], ts[rg + k], lg, rg, f);
      }
    }
  }

  lemma {:induction false} RefBack(ts: seq<FuncType>, p: nat, q: nat, lg: int, rg: int, f: nat)
    requires SameRef(ts, p, q, lg, rg, f)
    ensures SameRef(ts, q, p, rg, lg, f)
    decreases f, 0
  {
    if Start(ts, p) != lg {
      SameBack(ts, p, q, f - 1);
    }
  }

  lemma {:induction false} ValueBack(ts: seq<FuncType>, u: ValueType, v: ValueType, lg: int, rg: int, f: nat)
    ensures SameValue(ts, u, v, lg, rg, f) ==> SameValue(ts, v, u, rg, lg, f)
    decreases f, 1
  {
    hide SameRef;
    if SameValue(ts, u, v, lg, rg, f) && Named(u) {
      RefBack(ts, u.typeIndex, v.typeIndex, lg, rg, f);
    }
  }

  lemma {:induction false} MemberBack(ts: seq<FuncType>, s: FuncType, t: FuncType, lg: int, rg: int, f: nat)
    requires SameMember(ts, s, t, lg, rg, f)
    ensures SameMember(ts, t, s, rg, lg, f)
    decreases f, 2
  {
    if s.super != MAX32 {
      RefBack(ts, s.super, t.super, lg, rg, f);
    }
    hide SameRef, SameValue;
    forall u, v
      ensures SameValue(ts, u, v, lg, rg, f) ==> SameValue(ts, v, u, rg, lg, f)
    {
      ValueBack(ts, u, v, lg, rg, f);
    }
    assert SameTyped(ts, t.params, s.params, rg, lg, f) && SameTyped(ts, t.results, s.results, rg, lg, f);
    forall k | 0 <= k < |t.fields|
      ensures SameField(ts, t.fields[k], s.fields[k], rg, lg, f)
    {
      assert SameField(ts, s.fields[k], t.fields[k], lg, rg, f);
    }
    assert SameFields(ts, t.fields, s.fields, rg, lg, f);
  }

  lemma {:induction false} RefChain(ts: seq<FuncType>, p: nat, q: nat, r: nat, lg: int, mg: int, rg: int, f: nat)
    requires SameRef(ts, p, q, lg, mg, f) && SameRef(ts, q, r, mg, rg, f)
    ensures SameRef(ts, p, r, lg, rg, f)
    decreases f, 0
  {
    if Start(ts, p) != lg {
      SameChain(ts, p, q, r, f - 1);
    }
  }

  lemma {:induction false} ValueChain(ts: seq<FuncType>, u: ValueType, v: ValueType, w: ValueType, lg: int, mg: int,
      rg: int, f: nat)
    requires SameValue(ts, u, v, lg, mg, f) && SameValue(ts, v, w, mg, rg, f)
    ensures SameValue(ts, u, w, lg, rg, f)
    decreases f, 1
  {
    hide SameRef;
    if Named(u) {
      RefChain(ts, u.typeIndex, v.typeIndex, w.typeIndex, lg, mg, rg, f);
    }
  }

  lemma {:induction false} MemberChain(ts: seq<FuncType>, s: FuncType, t: FuncType, u: FuncType, lg: int, mg: int,
      rg: int, f: nat)
    requires SameMember(ts, s, t, lg, mg, f) && SameMember(ts, t, u, mg, rg, f)
    ensures SameMember(ts, s, u, lg, rg, f)
    decreases f, 2
  {
    if s.super != MAX32 {
      RefChain(ts, s.super, t.super, u.super, lg, mg, rg, f);
    }
    hide SameRef, SameValue;
    forall k | 0 <= k < |s.params|
      ensures SameValue(ts, s.params[k].semantic, u.params[k].semantic, lg, rg, f)
    {
      ValueChain(ts, s.params[k].semantic, t.params[k].semantic, u.params[k].semantic, lg, mg, rg, f);
    }
    forall k | 0 <= k < |s.results|
      ensures SameValue(ts, s.results[k].semantic, u.results[k].semantic, lg, rg, f)
    {
      ValueChain(ts, s.results[k].semantic, t.results[k].semantic, u.results[k].semantic, lg, mg, rg, f);
    }
    forall k | 0 <= k < |s.fields|
      ensures SameField(ts, s.fields[k], u.fields[k], lg, rg, f)
    {
      assert SameField(ts, s.fields[k], t.fields[k], lg, mg, f) && SameField(ts, t.fields[k], u.fields[k], mg, rg, f);
      ValueChain(ts, s.fields[k].semantic, t.fields[k].semantic, u.fields[k].semantic, lg, mg, rg, f);
    }
  }

  lemma {:induction false} SameChain(ts: seq<FuncType>, a: nat, b: nat, c: nat, f: nat)
    requires SameType(ts, a, b, f) && SameType(ts, b, c, f)
    ensures SameType(ts, a, c, f)
    decreases f, 3
  {
    if a != b && b != c {
      var lg, mg, rg, count := Start(ts, a), Start(ts, b), Start(ts, c), ts[a].groupCount;
      hide SameMember;
      forall k | 0 <= k < count
        ensures SameAt(ts, lg, rg, k, f)
      {
        assert SameAt(ts, lg, mg, k, f) && SameAt(ts, mg, rg, k, f);
        MemberChain(ts, ts[lg + k], ts[mg + k], ts[rg + k], lg, mg, rg, f);
      }
      assert SameGroups(ts, lg, rg, count, f);
    }
  }

  /** Equality of defined types is an equivalence. */
  lemma {:induction false} SameEquivalence(ts: seq<FuncType>, a: nat, b: nat, c: nat)
    ensures a < |ts| ==> Same(ts, a, a)
    ensures Same(ts, a, b) <==> Same(ts, b, a)
    ensures Same(ts, a, b) && Same(ts, b, c) ==> Same(ts, a, c)
  {
    if Same(ts, a, b) {
      SameBack(ts, a, b, DEPENDENCY_LIMIT);
      if Same(ts, b, c) {
        SameChain(ts, a, b, c, DEPENDENCY_LIMIT);
      }
    } else if Same(ts, b, a) {
      SameBack(ts, b, a, DEPENDENCY_LIMIT);
    }
  }

  // ---------------------------------------------------------------- an order

  /** Equal types have equal supertypes, or none. */
  lemma {:induction false} SupersSame(ts: seq<FuncType>, depths: seq<nat>, a: nat, b: nat)
    requires Layered(ts, depths) && |depths| == |ts| && SupersEarlier(ts) && Same(ts, a, b)
    ensures ts[a].super == MAX32 || ts[b].super == MAX32 ==> ts[a].super == ts[b].super
    ensures ts[a].super != MAX32 ==> ts[b].super != MAX32 && Same(ts, ts[a].super, ts[b].super)
  {
    assert Layer(ts, depths, a) && Layer(ts, depths, b);
    if a != b {
      var lg, rg := Start(ts, a), Start(ts, b);
      assert SameAt(ts, lg, rg, ts[a].groupOffset, DEPENDENCY_LIMIT);
      assert SameSuper(ts, ts[a].super, ts[b].super, lg, rg, DEPENDENCY_LIMIT);
      if ts[a].super != MAX32 {
        SuperSame(ts, depths, a, b);
      }
    } else if ts[a].super != MAX32 {
      hide SameMember;
      assert ts[a].super < |ts|;
    }
  }

  lemma {:induction false} SuperSame(ts: seq<FuncType>, depths: seq<nat>, a: nat, b: nat)
    requires Layered(ts, depths) && |depths| == |ts| && a < |ts| && b < |ts| && a != b && Same(ts, a, b)
    requires ts[a].super != MAX32 && SameRef(ts, ts[a].super, ts[b].super, Start(ts, a), Start(ts, b), DEPENDENCY_LIMIT)
    ensures Same(ts, ts[a].super, ts[b].super)
  {
    var p, q := ts[a].super, ts[b].super;
    assert Layer(ts, depths, a) && Layer(ts, depths, p) && Layer(ts, depths, q);
    if Start(ts, p) == Start(ts, a) {
      assert Together(ts, depths, p, a) && Together(ts, depths, q, b) && Together(ts, depths, a, p)
          && Together(ts, depths, b, q);
    } else {
      hide SameMember;
      Settled(ts, depths, p, q, DEPENDENCY_LIMIT - 1, DEPENDENCY_LIMIT);
    }
  }

  lemma {:induction false} SameMatches(ts: seq<FuncType>, depths: seq<nat>, a: nat, b: nat, c: nat)
    requires Layered(ts, depths) && |depths| == |ts| && SupersEarlier(ts) && Same(ts, a, b) && Matches(ts, b, c)
    ensures Matches(ts, a, c)
    decreases b
  {
    hide Same, Layered;
    SameRange(ts, a, b);
    if Same(ts, b, c) {
      SameEquivalence(ts, a, b, c);
    } else {
      SupersSame(ts, depths, a, b);
      SameMatches(ts, depths, ts[a].super, ts[b].super, c);
    }
  }

  lemma {:induction false} SameRange(ts: seq<FuncType>, a: nat, b: nat)
    requires Same(ts, a, b)
    ensures a < |ts| && b < |ts|
  {
  }

  lemma {:induction false} MatchesChain(ts: seq<FuncType>, depths: seq<nat>, a: nat, b: nat, c: nat)
    requires Layered(ts, depths) && |depths| == |ts| && SupersEarlier(ts) && Matches(ts, a, b) && Matches(ts, b, c)
    ensures Matches(ts, a, c)
    decreases a
  {
    hide Same, Layered;
    if Same(ts, a, b) {
      SameMatches(ts, depths, a, b, c);
    } else {
      MatchesChain(ts, depths, ts[a].super, b, c);
    }
  }

  /** On a finalized context, matching is a preorder on defined types. */
  lemma {:induction false} MatchesPreorder(ts: seq<FuncType>, a: nat, b: nat, c: nat)
    requires SupersEarlier(ts) && Groups(ts, []).Fine?
    ensures a < |ts| ==> Matches(ts, a, a)
    ensures Matches(ts, a, b) && Matches(ts, b, c) ==> Matches(ts, a, c)
  {
    hide Groups, Same;
    SameEquivalence(ts, a, a, a);
    GroupsLayered(ts, []);
    if Matches(ts, a, b) && Matches(ts, b, c) {
      MatchesChain(ts, Groups(ts, []).depths, a, b, c);
    }
  }
}
