/**
  What equality of defined types means (src/validate_composite.c): two types are
  equal exactly if they have the same shape, where the shape of a type is its
  place in its group and the whole group, with the types of earlier groups
  replaced by their shapes.
 */
module TypeShapes {
  import opened Common
  import opened Bytes
  import opened ArtifactRecords
  import opened DefinedTypes
  import opened TypeOrder
  import opened TypeMeaning

  /** What a reference leads to: a place in the same group, or the shape of a type
      of another group; `Unseen` where the unfolding ends. */
  datatype Shape = Inside(place: nat) | Outside(place: nat, group: seq<Member>) | Unseen

  datatype Slot = Slot(carrier: Byte, isReference: bool, nullable: bool, heapKind: nat, target: Option<Shape>)

  datatype Field = Field(packed: Byte, mutable: bool, content: Slot)

  datatype Member = Member(kind: nat, final: bool, super: Option<Shape>, params: seq<Slot>, results: seq<Slot>,
                           fields: seq<Field>)

  function ShapeOf(ts: seq<FuncType>, p: nat, g: int, fuel: nat): (s: Shape)
    decreases fuel, 0
  {
    if p >= |ts| then Unseen
    else if Start(ts, p) == g then Inside(ts[p].groupOffset)
    else if fuel == 0 then Unseen
    else Unfolded(ts, p, fuel - 1)
  }

  function SlotOf(ts: seq<FuncType>, v: ValueType, g: int, fuel: nat): (s: Slot)
    decreases fuel, 1
  {
    Slot(v.carrier, v.isReference, v.nullable, v.heapKind,
         if Named(v) then Some(ShapeOf(ts, v.typeIndex, g, fuel)) else None)
  }

  function Slots(ts: seq<FuncType>, xs: seq<Typed>, g: int, fuel: nat): (s: seq<Slot>)
    decreases fuel, 2
  {
    seq(|xs|, i requires 0 <= i < |xs| => SlotOf(ts, xs[i].semantic, g, fuel))
  }

  function FieldsOf(ts: seq<FuncType>, xs: seq<FieldType>, g: int, fuel: nat): (s: seq<Field>)
    decreases fuel, 2
  {
    seq(|xs|, i requires 0 <= i < |xs| =>
      Field(xs[i].packed, xs[i].mutable, SlotOf(ts, xs[i].semantic, g, fuel)))
  }

  function MemberOf(ts: seq<FuncType>, t: FuncType, g: int, fuel: nat): (m: Member)
    decreases fuel, 3
  {
    Member(t.kind, t.final, if t.super == MAX32 then None else Some(ShapeOf(ts, t.super, g, fuel)),
      Slots(ts, t.params, g, fuel), Slots(ts, t.results, g, fuel), FieldsOf(ts, t.fields, g, fuel))
  }

  /** The shape of type `a`, with references to other groups unfolded `fuel` deep. */
  function Unfolded(ts: seq<FuncType>, a: nat, fuel: nat): (s: Shape)
    decreases fuel, 4
  {
    if a >= |ts| || Start(ts, a) < 0 || Start(ts, a) + ts[a].groupCount > |ts| then Unseen
    else
      var g := Start(ts, a);
      Outside(ts[a].groupOffset,
              seq(ts[a].groupCount, k requires 0 <= k < ts[a].groupCount => MemberOf(ts, ts[g + k], g, fuel)))
  }

  // ---------------------------------------------------------------- one step

  /** References from `a` and `b`, whose groups lie no deeper than `f` reaches. */
  lemma {:induction false} RefShaped(ts: seq<FuncType>, depths: seq<nat>, a: nat, b: nat, p: nat, q: nat, f: nat)
    requires Layered(ts, depths) && |depths| == |ts| && a < |ts| && b < |ts|
    requires depths[a] <= f + 1 && depths[b] <= f + 1 && Below(ts, depths, a, p) && Below(ts, depths, b, q)
    ensures SameRef(ts, p, q, Start(ts, a), Start(ts, b), f) <==>
            ShapeOf(ts, p, Start(ts, a), f) == ShapeOf(ts, q, Start(ts, b), f)
    decreases f, 0
  {
    assert Layer(ts, depths, p) && Layer(ts, depths, q);
    hide Layered, Layer, SameType, Unfolded;
    if Start(ts, p) != Start(ts, a) && Start(ts, q) != Start(ts, b) {
      Shaped(ts, depths, p, q, f - 1);
    } else {
      UnfoldedApart(ts, p, f);
      UnfoldedApart(ts, q, f);
    }
  }

  lemma {:induction false} UnfoldedApart(ts: seq<FuncType>, p: nat, f: nat)
    ensures f > 0 ==> !Unfolded(ts, p, f - 1).Inside?
  {
  }

  lemma {:induction false} SlotShaped(ts: seq<FuncType>, depths: seq<nat>, a: nat, b: nat, i: nat, j: nat, f: nat)
    requires Layered(ts, depths) && |depths| == |ts| && a < |ts| && b < |ts|
    requires depths[a] <= f + 1 && depths[b] <= f + 1 && i < |ValuesOf(ts[a])| && j < |ValuesOf(ts[b])|
    ensures SameValue(ts, ValuesOf(ts[a])[i], ValuesOf(ts[b])[j], Start(ts, a), Start(ts, b), f) <==>
            SlotOf(ts, ValuesOf(ts[a])[i], Start(ts, a), f) == SlotOf(ts, ValuesOf(ts[b])[j], Start(ts, b), f)
    decreases f, 1
  {
    assert Layer(ts, depths, a) && Layer(ts, depths, b);
    hide ValuesOf, SameRef, Layered, ShapeOf;
    var u, v := ValuesOf(ts[a])[i], ValuesOf(ts[b])[j];
    if Named(u) && Named(v) {
      RefShaped(ts, depths, a, b, u.typeIndex, v.typeIndex, f);
    }
  }

  lemma {:induction false} ParamsShaped(ts: seq<FuncType>, depths: seq<nat>, a: nat, b: nat, f: nat)
    requires Layered(ts, depths) && |depths| == |ts| && a < |ts| && b < |ts|
    requires depths[a] <= f + 1 && depths[b] <= f + 1
    ensures SameTyped(ts, ts[a].params, ts[b].params, Start(ts, a), Start(ts, b), f) <==>
            Slots(ts, ts[a].params, Start(ts, a), f) == Slots(ts, ts[b].params, Start(ts, b), f)
    decreases f, 2
  {
    var s, t, lg, rg := ts[a].params, ts[b].params, Start(ts, a), Start(ts, b);
    hide Layered, SameValue, SlotOf;
    if |s| == |t| {
      forall k | 0 <= k < |s|
        ensures SameValue(ts, s[k].semantic, t[k].semantic, lg, rg, f) <==>
                Slots(ts, s, lg, f)[k] == Slots(ts, t, rg, f)[k]
      {
        SlotShaped(ts, depths, a, b, k, k, f);
      }
      SlotsEqual(Slots(ts, s, lg, f), Slots(ts, t, rg, f));
    }
  }

  lemma {:induction false} SlotsEqual<T>(a: seq<T>, b: seq<T>)
    requires |a| == |b|
    ensures a == b <==> forall k :: 0 <= k < |a| ==> a[k] == b[k]
  {
  }

  lemma {:induction false} ResultsShaped(ts: seq<FuncType>, depths: seq<nat>, a: nat, b: nat, f: nat)
    requires Layered(ts, depths) && |depths| == |ts| && a < |ts| && b < |ts|
    requires depths[a] <= f + 1 && depths[b] <= f + 1
    ensures SameTyped(ts, ts[a].results, ts[b].results, Start(ts, a), Start(ts, b), f) <==>
            Slots(ts, ts[a].results, Start(ts, a), f) == Slots(ts, ts[b].results, Start(ts, b), f)
    decreases f, 2
  {
    var s, t, lg, rg := ts[a].results, ts[b].results, Start(ts, a), Start(ts, b);
    hide Layered, SameValue, SlotOf;
    if |s| == |t| {
      forall k | 0 <= k < |s|
        ensures SameValue(ts, s[k].semantic, t[k].semantic, lg, rg, f) <==>
                Slots(ts, s, lg, f)[k] == Slots(ts, t, rg, f)[k]
      {
        SlotShaped(ts, depths, a, b, |ts[a].params| + k, |ts[b].params| + k, f);
      }
      SlotsEqual(Slots(ts, s, lg, f), Slots(ts, t, rg, f));
    }
  }

  lemma {:induction false} FieldsShaped(ts: seq<FuncType>, depths: seq<nat>, a: nat, b: nat, f: nat)
    requires Layered(ts, depths) && |depths| == |ts| && a < |ts| && b < |ts|
    requires depths[a] <= f + 1 && depths[b] <= f + 1
    ensures SameFields(ts, ts[a].fields, ts[b].fields, Start(ts, a), Start(ts, b), f) <==>
            FieldsOf(ts, ts[a].fields, Start(ts, a), f) == FieldsOf(ts, ts[b].fields, Start(ts, b), f)
    decreases f, 2
  {
    var s, t, lg, rg := ts[a].fields, ts[b].fields, Start(ts, a), Start(ts, b);
    hide Layered, SameValue, SlotOf;
    if |s| == |t| {
      forall k | 0 <= k < |s|
        ensures SameField(ts, s[k], t[k], lg, rg, f) <==> FieldsOf(ts, s, lg, f)[k] == FieldsOf(ts, t, rg, f)[k]
      {
        SlotShaped(ts, depths, a, b, |ts[a].params| + |ts[a].results| + k, |ts[b].params| + |ts[b].results| + k, f);
      }
      SlotsEqual(FieldsOf(ts, s, lg, f), FieldsOf(ts, t, rg, f));
    }
  }

  lemma {:induction false} MemberShaped(ts: seq<FuncType>, depths: seq<nat>, a: nat, b: nat, f: nat)
    requires Layered(ts, depths) && |depths| == |ts| && a < |ts| && b < |ts|
    requires depths[a] <= f + 1 && depths[b] <= f + 1
    ensures SameMember(ts, ts[a], ts[b], Start(ts, a), Start(ts, b), f) <==>
            MemberOf(ts, ts[a], Start(ts, a), f) == MemberOf(ts, ts[b], Start(ts, b), f)
    decreases f, 3
  {
    assert Layer(ts, depths, a) && Layer(ts, depths, b);
    hide Layered, SameTyped, SameFields, Slots, FieldsOf, ShapeOf, SameRef, ValuesOf;
    if ts[a].super != MAX32 && ts[b].super != MAX32 {
      RefShaped(ts, depths, a, b, ts[a].super, ts[b].super, f);
    }
    ParamsShaped(ts, depths, a, b, f);
    ResultsShaped(ts, depths, a, b, f);
    FieldsShaped(ts, depths, a, b, f);
  }

  /** The comparison and the unfolding, as deep as both types reach. */
  lemma {:induction false} Shaped(ts: seq<FuncType>, depths: seq<nat>, a: nat, b: nat, f: nat)
    requires Layered(ts, depths) && |depths| == |ts| && a < |ts| && b < |ts|
    requires depths[a] <= f + 1 && depths[b] <= f + 1
    ensures SameType(ts, a, b, f) <==> Unfolded(ts, a, f) == Unfolded(ts, b, f)
    decreases f, 4
  {
    assert Layer(ts, depths, a) && Layer(ts, depths, b);
    var lg, rg, n := Start(ts, a), Start(ts, b), ts[a].groupCount;
    hide Layer, SameMember, MemberOf;
    if a != b && n == ts[b].groupCount {
      forall k | 0 <= k < n
        ensures SameAt(ts, lg, rg, k, f) <==> Unfolded(ts, a, f).group[k] == Unfolded(ts, b, f).group[k]
      {
        assert Together(ts, depths, a, lg + k) && Together(ts, depths, b, rg + k);
        MemberShaped(ts, depths, lg + k, rg + k, f);
      }
      SlotsEqual(Unfolded(ts, a, f).group, Unfolded(ts, b, f).group);
      assert SameGroups(ts, lg, rg, n, f) <==> Unfolded(ts, a, f).group == Unfolded(ts, b, f).group;
    }
  }

  /** In a finalized context, types are equal exactly if their shapes are, unfolded
      256 levels deep or any deeper. */
  lemma {:induction false} SameShapes(ts: seq<FuncType>, a: nat, b: nat, deep: nat)
    requires Finished(ts) && a < |ts| && b < |ts| && deep >= 256
    ensures Same(ts, a, b) <==> Unfolded(ts, a, deep) == Unfolded(ts, b, deep)
  {
    FinishedLayers(ts);
    hide Finished, Groups, SameType, Unfolded, SupersEarlier, Together;
    assert Layer(ts, Groups(ts, []).depths, a) && Layer(ts, Groups(ts, []).depths, b);
    Shaped(ts, Groups(ts, []).depths, a, b, deep);
    LimitSuffices(ts, a, b, deep);
  }
}
