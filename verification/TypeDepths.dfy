/**
  The depth limit of type contexts (src/validate_composite.c): the depths that
  finalizing finds are the least levels that the groups can be put on, so that a
  context is too deep exactly if no arrangement on 256 levels exists.
 */
module TypeDepths {
  import opened Common
  import opened Bytes
  import opened ArtifactRecords
  import opened DefinedTypes
  import opened TypeOrder

  /** A reference from type `a` to type `p`: a group leads only to lower levels. */
  predicate Descends(ts: seq<FuncType>, levels: seq<nat>, a: nat, p: nat)
    requires a < |ts| == |levels|
  {
    p < |ts| && (Start(ts, p) != Start(ts, a) ==> levels[p] < levels[a])
  }

  ghost predicate Leveled(ts: seq<FuncType>, levels: seq<nat>, a: nat)
    requires a < |ts| == |levels|
  {
    && levels[a] >= 1
    && (ts[a].super != MAX32 ==> Descends(ts, levels, a, ts[a].super))
    && (forall k :: 0 <= k < |ValuesOf(ts[a])| && Named(ValuesOf(ts[a])[k]) ==>
          Descends(ts, levels, a, ValuesOf(ts[a])[k].typeIndex))
  }

  /** Every group is on one level, above all the groups that it refers to. */
  ghost predicate Arranged(ts: seq<FuncType>, levels: seq<nat>) {
    && |levels| == |ts|
    && (forall a :: 0 <= a < |ts| ==> Leveled(ts, levels, a))
    && (forall a, b :: 0 <= a < |ts| && 0 <= b < |ts| && Start(ts, a) == Start(ts, b) ==> levels[a] == levels[b])
  }

  lemma {:induction false} ValuesLeast(vs: seq<ValueType>, k: nat, depths: seq<nat>, end: nat, depth: nat, level: nat)
    requires k <= |vs| && depth <= level
    requires forall i :: 0 <= i < |vs| && Named(vs[i]) && vs[i].typeIndex < |depths| ==> depths[vs[i].typeIndex] < level
    ensures var d := ValuesDepth(vs, k, depths, end, depth); d.Some? ==> d.value <= level
    decreases |vs| - k
  {
    if k < |vs| {
      var next := if Named(vs[k]) && vs[k].typeIndex < |depths| then Raise(depth, depths[vs[k].typeIndex]) else depth;
      ValuesLeast(vs, k + 1, depths, end, next, level);
    }
  }

  /** What member `a` refers to before its group is below `level`. */
  ghost predicate Under(ts: seq<FuncType>, depths: seq<nat>, a: nat, level: nat)
    requires a < |ts|
  {
    && (ts[a].super != MAX32 && ts[a].super < |depths| ==> depths[ts[a].super] < level)
    && (forall i :: 0 <= i < |ValuesOf(ts[a])| && Named(ValuesOf(ts[a])[i]) ==>
          (ValuesOf(ts[a])[i].typeIndex < |depths| ==> depths[ValuesOf(ts[a])[i].typeIndex] < level))
  }

  lemma {:induction false} MembersLeast(ts: seq<FuncType>, depths: seq<nat>, count: nat, j: nat, depth: nat, level: nat)
    requires j <= count && |depths| + count <= |ts| && depth <= level
    requires forall a :: |depths| + j <= a < |depths| + count ==> Under(ts, depths, a, level)
    ensures var d := MembersDepth(ts, depths, count, j, depth); d.Some? ==> d.value <= level
    decreases count - j
  {
    hide ValuesOf, ValuesDepth;
    if j < count {
      var t := ts[|depths| + j];
      assert Under(ts, depths, |depths| + j, level);
      var first := if t.super != MAX32 && t.super < |depths| then Raise(depth, depths[t.super]) else depth;
      ValuesLeast(ValuesOf(t), 0, depths, |depths| + count, first, level);
      var d := ValuesDepth(ValuesOf(t), 0, depths, |depths| + count, first);
      if d.Some? {
        MembersLeast(ts, depths, count, j + 1, d.value, level);
      }
    }
  }

  /** The depths found so far belong to complete groups and exceed no level. */
  ghost predicate Lowest(ts: seq<FuncType>, depths: seq<nat>, levels: seq<nat>) {
    && |depths| <= |ts| == |levels|
    && (forall p :: 0 <= p < |depths| ==> 0 <= Start(ts, p) < |depths| && depths[p] <= levels[p])
  }

  lemma {:induction false} GroupUnder(ts: seq<FuncType>, depths: seq<nat>, levels: seq<nat>, count: nat, a: nat, d: nat)
    requires Arranged(ts, levels) && Lowest(ts, depths, levels) && |depths| + count <= |ts|
    requires |depths| <= a < |depths| + count && AllBelow(ts, depths, count, 0, d)
    ensures Start(ts, a) == |depths| && levels[a] == levels[|depths|] && Under(ts, depths, a, levels[|depths|])
  {
    assert MemberBelow(ts, depths, count, a, d) && MemberBelow(ts, depths, count, |depths|, d);
    assert Leveled(ts, levels, a);
    hide ValuesOf, AllBelow;
    forall p: nat | p < |depths| && Descends(ts, levels, a, p)
      ensures depths[p] < levels[a]
    {
      assert Start(ts, p) < |depths|;
    }
  }

  /** One group: its depth is no more than its level. */
  lemma {:induction false} GroupLeast(ts: seq<FuncType>, depths: seq<nat>, levels: seq<nat>, count: nat)
    requires Arranged(ts, levels) && Lowest(ts, depths, levels) && 0 < count && |depths| + count <= |ts|
    requires MembersDepth(ts, depths, count, 0, 1).Some?
    ensures var d := MembersDepth(ts, depths, count, 0, 1).value;
            && d <= levels[|depths|] && Lowest(ts, depths + seq(count, _ => d), levels)
  {
    MembersBelow(ts, depths, count, 0, 1);
    assert Leveled(ts, levels, |depths|);
    hide AllBelow, MembersDepth, Under, Leveled;
    var d := MembersDepth(ts, depths, count, 0, 1).value;
    forall a | |depths| <= a < |depths| + count
      ensures Start(ts, a) == |depths| && levels[a] == levels[|depths|] && Under(ts, depths, a, levels[|depths|])
    {
      GroupUnder(ts, depths, levels, count, a, d);
    }
    assert levels[|depths|] >= 1 by {
      LevelPositive(ts, levels, |depths|);
    }
    MembersLeast(ts, depths, count, 0, 1, levels[|depths|]);
  }

  lemma {:induction false} LevelPositive(ts: seq<FuncType>, levels: seq<nat>, a: nat)
    requires Arranged(ts, levels) && a < |ts|
    ensures levels[a] >= 1
  {
    assert Leveled(ts, levels, a);
  }

  lemma {:induction false} GroupsLeast(ts: seq<FuncType>, depths: seq<nat>, levels: seq<nat>)
    requires Arranged(ts, levels) && Lowest(ts, depths, levels)
    ensures Groups(ts, depths).Fine? ==> Lowest(ts, Groups(ts, depths).depths, levels)
    ensures Groups(ts, depths).TooDeep? ==> exists a :: 0 <= a < |ts| && levels[a] > 256
    decreases |ts| - |depths|
  {
    hide MembersDepth, Arranged, Lowest, BodiesOk;
    LowestLength(ts, depths, levels);
    if |depths| < |ts| {
      var count := ts[|depths|].groupCount;
      if 0 < count <= |ts| - |depths| && MembersDepth(ts, depths, count, 0, 1).Some? {
        GroupLeast(ts, depths, levels, count);
        var d := MembersDepth(ts, depths, count, 0, 1).value;
        if d > 256 {
          assert levels[|depths|] > 256;
        } else if BodiesOk(ts, |depths|, count) {
          GroupsLeast(ts, depths + seq(count, _ => d), levels);
        }
      }
    }
  }

  lemma {:induction false} LowestLength(ts: seq<FuncType>, depths: seq<nat>, levels: seq<nat>)
    requires Lowest(ts, depths, levels)
    ensures |depths| <= |ts| == |levels|
  {
  }

  /** The depths are an arrangement, on at most 256 levels. */
  lemma {:induction false} DepthsArranged(ts: seq<FuncType>)
    requires SupersEarlier(ts) && Groups(ts, []).Fine?
    ensures var depths := Groups(ts, []).depths;
            Arranged(ts, depths) && forall a :: 0 <= a < |ts| ==> depths[a] <= 256
  {
    hide Groups, SupersEarlier;
    GroupsLayered(ts, []);
    var depths := Groups(ts, []).depths;
    hide ValuesOf;
    forall a | 0 <= a < |ts|
      ensures Leveled(ts, depths, a) && depths[a] <= 256
    {
      assert Layer(ts, depths, a);
    }
    forall a, b | 0 <= a < |ts| && 0 <= b < |ts| && Start(ts, a) == Start(ts, b)
      ensures depths[a] == depths[b]
    {
      assert Layer(ts, depths, a) && Layer(ts, depths, b) && Together(ts, depths, a, b) && Together(ts, depths, b, a);
    }
  }

  /** No arrangement of accepted types has a group on a lower level than the depth
      found for it, and types that are refused as too deep have none on 256
      levels. */
  lemma {:induction false} DepthsLeast(ts: seq<FuncType>, levels: seq<nat>)
    requires Arranged(ts, levels)
    ensures Groups(ts, []).Fine? ==> forall a :: 0 <= a < |ts| ==> Groups(ts, []).depths[a] <= levels[a]
    ensures Groups(ts, []).TooDeep? ==> exists a :: 0 <= a < |ts| && levels[a] > 256
  {
    hide Groups;
    GroupsLeast(ts, [], levels);
  }
}
