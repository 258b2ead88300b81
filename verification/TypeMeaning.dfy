/**
  What matching value types and subtyping defined types mean
  (src/validation_context.c, src/validate_composite.c): a value type is the set
  of values that it admits, matching is inclusion of these sets, and a subtype
  can stand in wherever its supertype is expected.
 */
module TypeMeaning {
  import opened Common
  import opened Bytes
  import opened ArtifactRecords
  import opened DefinedTypes
  import opened TypeOrder

  /** A context whose types were read in order and finalized. */
  ghost predicate Finished(ts: seq<FuncType>) {
    SupersEarlier(ts) && Finalize(ts) == Made(ts)
  }

  /** A value type that finalizing has bound to the types of its context. */
  predicate Bound(ts: seq<FuncType>, v: ValueType) {
    Named(v) ==> v.isReference && v.typeIndex < |ts| && v.carrier == CarrierFor(ts[v.typeIndex].kind)
  }

  lemma {:induction false} FinishedFacts(ts: seq<FuncType>)
    requires Finished(ts)
    ensures SupersEarlier(ts) && Groups(ts, []).Fine? && AllBound(ts) && AllTypesBindable(ts)
  {
    hide Groups, AllBound, SupersEarlier, AllTypesBindable;
    BoundUnchanged(ts);
  }

  lemma {:induction false} BoundAll(ts: seq<FuncType>, a: nat)
    requires Finished(ts) && a < |ts|
    ensures forall i :: 0 <= i < |ts[a].params| ==> Bound(ts, ts[a].params[i].semantic)
    ensures forall i :: 0 <= i < |ts[a].results| ==> Bound(ts, ts[a].results[i].semantic)
    ensures forall i :: 0 <= i < |ts[a].fields| ==> Bound(ts, ts[a].fields[i].semantic)
  {
    FinishedFacts(ts);
    hide Groups, Finalize, SupersEarlier;
    assert TypeBindable(Kinds(ts), ts[a], a) && TypeBound(Kinds(ts), ts[a]);
  }

  // ---------------------------------------------------------------- subtypes keep their kind

  lemma {:induction false} BodiesHold(ts: seq<FuncType>, depths: seq<nat>, a: nat)
    requires |depths| <= a < |ts| && Groups(ts, depths).Fine?
    ensures SubtypeBody(ts, a)
    decreases |ts| - |depths|
  {
    hide MembersDepth, SubtypeBody;
    var count := ts[|depths|].groupCount;
    var d := MembersDepth(ts, depths, count, 0, 1).value;
    if a >= |depths| + count {
      BodiesHold(ts, depths + seq(count, _ => d), a);
    }
  }

  ghost predicate Layers(ts: seq<FuncType>, depths: seq<nat>) {
    SupersEarlier(ts) && Layered(ts, depths) && |depths| == |ts| && forall a :: 0 <= a < |ts| ==> SubtypeBody(ts, a)
  }

  lemma {:induction false} FinishedLayers(ts: seq<FuncType>)
    requires Finished(ts)
    ensures Groups(ts, []).Fine? && Layers(ts, Groups(ts, []).depths)
  {
    FinishedFacts(ts);
    hide Groups, Finalize, SupersEarlier, AllBound, AllTypesBindable, SubtypeBody, Layer, Together;
    GroupsLayered(ts, []);
    forall a | 0 <= a < |ts|
      ensures SubtypeBody(ts, a)
    {
      BodiesHold(ts, [], a);
    }
  }

  lemma {:induction false} SameKind(ts: seq<FuncType>, depths: seq<nat>, a: nat, b: nat)
    requires Layers(ts, depths) && Same(ts, a, b)
    ensures a < |ts| && b < |ts| && ts[a].kind == ts[b].kind
  {
    if a != b {
      assert Layer(ts, depths, a) && Layer(ts, depths, b);
      assert SameAt(ts, Start(ts, a), Start(ts, b), ts[a].groupOffset, DEPENDENCY_LIMIT);
    }
  }

  lemma {:induction false} MatchesKind(ts: seq<FuncType>, depths: seq<nat>, a: nat, b: nat)
    requires Layers(ts, depths) && Matches(ts, a, b)
    ensures a < |ts| && b < |ts| && ts[a].kind == ts[b].kind
    decreases a
  {
    hide Same, Layered;
    if Same(ts, a, b) {
      SameKind(ts, depths, a, b);
    } else {
      assert SubtypeBody(ts, a);
      MatchesKind(ts, depths, ts[a].super, b);
    }
  }

  // ---------------------------------------------------------------- matching is a preorder

  lemma {:induction false} ValueReflexive(ts: seq<FuncType>, v: ValueType)
    requires Bound(ts, v)
    ensures ValueMatches(ts, v, v) && ValueEqual(ts, v, v)
  {
    hide Same;
    if Named(v) {
      SameEquivalence(ts, v.typeIndex, v.typeIndex, v.typeIndex);
    }
  }

  lemma {:induction false} ValueChainsOn(ts: seq<FuncType>, depths: seq<nat>, u: ValueType, v: ValueType, w: ValueType)
    requires Layers(ts, depths) && Bound(ts, u) && Bound(ts, v) && Bound(ts, w)
    requires ValueMatches(ts, u, v) && ValueMatches(ts, v, w)
    ensures ValueMatches(ts, u, w)
  {
    hide Same, Layered, Matches;
    if Named(u) && Named(v) && u.isReference {
      MatchesKind(ts, depths, u.typeIndex, v.typeIndex);
      if Named(w) {
        MatchesChain(ts, depths, u.typeIndex, v.typeIndex, w.typeIndex);
      }
    }
  }

  /** On the bound value types of a finalized context, matching is reflexive and
      transitive. */
  lemma {:induction false} ValuePreorder(ts: seq<FuncType>, u: ValueType, v: ValueType, w: ValueType)
    requires Finished(ts) && Bound(ts, u) && Bound(ts, v) && Bound(ts, w)
    ensures ValueMatches(ts, u, u)
    ensures ValueMatches(ts, u, v) && ValueMatches(ts, v, w) ==> ValueMatches(ts, u, w)
  {
    hide ValueMatches, Layers, Groups, Finished;
    ValueReflexive(ts, u);
    FinishedLayers(ts);
    if ValueMatches(ts, u, v) && ValueMatches(ts, v, w) {
      ValueChainsOn(ts, Groups(ts, []).depths, u, v, w);
    }
  }

  /** Equal value types match both ways. */
  lemma {:induction false} EqualMatches(ts: seq<FuncType>, u: ValueType, v: ValueType)
    requires Bound(ts, u) && Bound(ts, v) && ValueEqual(ts, u, v)
    ensures ValueMatches(ts, u, v) && ValueMatches(ts, v, u)
  {
    hide Same;
    if u.isReference && Named(u) {
      SameEquivalence(ts, u.typeIndex, v.typeIndex, u.typeIndex);
    }
    if !u.isReference {
      assert !Named(u) && !Named(v);
    }
  }

  // ---------------------------------------------------------------- the body of a subtype

  /** Type `a` takes at least what `b` takes, gives at most what `b` gives, and has
      the fields of `b`, those that can be assigned with the very same type. */
  ghost predicate Refines(ts: seq<FuncType>, a: nat, b: nat) {
    && a < |ts| && b < |ts|
    && var s, t := ts[a], ts[b];
    && s.kind == t.kind && |s.params| == |t.params| && |s.results| == |t.results| && |s.fields| >= |t.fields|
    && (forall i :: 0 <= i < |s.params| ==> ValueMatches(ts, t.params[i].semantic, s.params[i].semantic))
    && (forall i :: 0 <= i < |s.results| ==> ValueMatches(ts, s.results[i].semantic, t.results[i].semantic))
    && (forall i :: 0 <= i < |t.fields| ==> FieldRefines(ts, s.fields[i], t.fields[i]))
  }

  ghost predicate FieldRefines(ts: seq<FuncType>, x: FieldType, y: FieldType) {
    && x.mutable == y.mutable && x.packed == y.packed && ValueMatches(ts, x.semantic, y.semantic)
    && (x.mutable ==> ValueMatches(ts, y.semantic, x.semantic))
  }

  lemma {:induction false} SuperRefined(ts: seq<FuncType>, a: nat)
    requires Finished(ts) && a < |ts| && ts[a].super != MAX32 && SubtypeBody(ts, a)
    ensures Refines(ts, a, ts[a].super)
  {
    BoundAll(ts, a);
    BoundAll(ts, ts[a].super);
    hide Finished, ValueMatches, ValueEqual, Bound;
    var s, t := ts[a], ts[ts[a].super];
    forall i | 0 <= i < |t.fields|
      ensures FieldRefines(ts, s.fields[i], t.fields[i])
    {
      assert FieldMatches(ts, s.fields[i], t.fields[i]);
      if s.fields[i].mutable {
        EqualMatches(ts, s.fields[i].semantic, t.fields[i].semantic);
      }
    }
  }

  /** A reference from a type to one of its own group, or to an earlier group, is
      equal to the reference at the same place of an equal type. */
  lemma {:induction false} RefSame(ts: seq<FuncType>, depths: seq<nat>, a: nat, b: nat, p: nat, q: nat)
    requires Layers(ts, depths) && a < |ts| && b < |ts| && a != b && Same(ts, a, b)
    requires Below(ts, depths, a, p) && q < |ts|
    requires SameRef(ts, p, q, Start(ts, a), Start(ts, b), DEPENDENCY_LIMIT)
    ensures Same(ts, p, q)
  {
    assert Layer(ts, depths, a) && Layer(ts, depths, b) && Layer(ts, depths, p) && Layer(ts, depths, q);
    if Start(ts, p) == Start(ts, a) {
      assert Together(ts, depths, p, a) && Together(ts, depths, q, b) && Together(ts, depths, a, p)
          && Together(ts, depths, b, q);
    } else {
      hide SameMember;
      Settled(ts, depths, p, q, DEPENDENCY_LIMIT - 1, DEPENDENCY_LIMIT);
    }
  }

  /** Value types at the same place of equal types are equal. */
  lemma {:induction false} ValueSame(ts: seq<FuncType>, depths: seq<nat>, a: nat, b: nat, k: nat, v: ValueType)
    requires Layers(ts, depths) && a < |ts| && b < |ts| && a != b && Same(ts, a, b) && k < |ValuesOf(ts[a])|
    requires Bound(ts, ValuesOf(ts[a])[k]) && Bound(ts, v)
    requires SameValue(ts, ValuesOf(ts[a])[k], v, Start(ts, a), Start(ts, b), DEPENDENCY_LIMIT)
    ensures ValueEqual(ts, ValuesOf(ts[a])[k], v)
  {
    var u := ValuesOf(ts[a])[k];
    assert Layer(ts, depths, a);
    hide Layers, Same, SameRef, ValuesOf;
    if Named(u) {
      RefSame(ts, depths, a, b, u.typeIndex, v.typeIndex);
    }
  }

  lemma {:induction false} SameRefined(ts: seq<FuncType>, depths: seq<nat>, a: nat, b: nat)
    requires Finished(ts) && Layers(ts, depths) && Same(ts, a, b)
    ensures Refines(ts, a, b)
  {
    SameKind(ts, depths, a, b);
    BoundAll(ts, a);
    BoundAll(ts, b);
    if a == b {
      SelfRefined(ts, a);
    } else {
      SameMembers(ts, depths, a, b);
      hide Finished, Layers, Same, SameValue, ValueMatches, ValueEqual, Bound;
      var s, t, lg, rg := ts[a], ts[b], Start(ts, a), Start(ts, b);
      var n, m := |s.params|, |s.results|;
      forall i | 0 <= i < n
        ensures ValueMatches(ts, t.params[i].semantic, s.params[i].semantic)
      {
        ValueSame(ts, depths, a, b, i, t.params[i].semantic);
        EqualMatches(ts, s.params[i].semantic, t.params[i].semantic);
      }
      forall i | 0 <= i < m
        ensures ValueMatches(ts, s.results[i].semantic, t.results[i].semantic)
      {
        ValueSame(ts, depths, a, b, n + i, t.results[i].semantic);
        EqualMatches(ts, s.results[i].semantic, t.results[i].semantic);
      }
      forall i | 0 <= i < |t.fields|
        ensures FieldRefines(ts, s.fields[i], t.fields[i])
      {
        assert SameField(ts, s.fields[i], t.fields[i], lg, rg, DEPENDENCY_LIMIT);
        ValueSame(ts, depths, a, b, n + m + i, t.fields[i].semantic);
        EqualMatches(ts, s.fields[i].semantic, t.fields[i].semantic);
      }
    }
  }

  lemma {:induction false} SelfRefined(ts: seq<FuncType>, a: nat)
    requires Finished(ts) && a < |ts|
    ensures Refines(ts, a, a)
  {
    BoundAll(ts, a);
    hide Finished, ValueMatches, ValueEqual, Bound;
    forall v | Bound(ts, v)
      ensures ValueMatches(ts, v, v)
    {
      ValueReflexive(ts, v);
    }
  }

  lemma {:induction false} SameMembers(ts: seq<FuncType>, depths: seq<nat>, a: nat, b: nat)
    requires Layers(ts, depths) && a < |ts| && b < |ts| && a != b && Same(ts, a, b)
    ensures var lg, rg := Start(ts, a), Start(ts, b);
            && SameTyped(ts, ts[a].params, ts[b].params, lg, rg, DEPENDENCY_LIMIT)
            && SameTyped(ts, ts[a].results, ts[b].results, lg, rg, DEPENDENCY_LIMIT)
            && SameFields(ts, ts[a].fields, ts[b].fields, lg, rg, DEPENDENCY_LIMIT)
  {
    assert Layer(ts, depths, a) && Layer(ts, depths, b);
    hide Layers, SameTyped, SameFields;
    assert SameAt(ts, Start(ts, a), Start(ts, b), ts[a].groupOffset, DEPENDENCY_LIMIT);
  }

  lemma {:induction false} RefinesChain(ts: seq<FuncType>, a: nat, b: nat, c: nat)
    requires Finished(ts) && Refines(ts, a, b) && Refines(ts, b, c)
    ensures Refines(ts, a, c)
  {
    BoundAll(ts, a);
    BoundAll(ts, b);
    BoundAll(ts, c);
    hide Finished, ValueMatches, Bound;
    var r, s, t := ts[a], ts[b], ts[c];
    forall i | 0 <= i < |r.params|
      ensures ValueMatches(ts, t.params[i].semantic, r.params[i].semantic)
    {
      ValuePreorder(ts, t.params[i].semantic, s.params[i].semantic, r.params[i].semantic);
    }
    forall i | 0 <= i < |r.results|
      ensures ValueMatches(ts, r.results[i].semantic, t.results[i].semantic)
    {
      ValuePreorder(ts, r.results[i].semantic, s.results[i].semantic, t.results[i].semantic);
    }
    forall i | 0 <= i < |t.fields|
      ensures FieldRefines(ts, r.fields[i], t.fields[i])
    {
      assert FieldRefines(ts, r.fields[i], s.fields[i]) && FieldRefines(ts, s.fields[i], t.fields[i]);
      ValuePreorder(ts, r.fields[i].semantic, s.fields[i].semantic, t.fields[i].semantic);
      ValuePreorder(ts, t.fields[i].semantic, s.fields[i].semantic, r.fields[i].semantic);
    }
  }

  lemma {:induction false} MatchesRefines(ts: seq<FuncType>, depths: seq<nat>, a: nat, b: nat)
    requires Finished(ts) && Layers(ts, depths) && Matches(ts, a, b)
    ensures Refines(ts, a, b)
    decreases a
  {
    assert SubtypeBody(ts, a);
    hide Finished, Layers, Same, Refines, SubtypeBody;
    if Same(ts, a, b) {
      SameRefined(ts, depths, a, b);
    } else {
      SuperRefined(ts, a);
      MatchesRefines(ts, depths, ts[a].super, b);
      RefinesChain(ts, a, ts[a].super, b);
    }
  }

  /** Whatever matches `u` matches `v`. */
  ghost predicate Accepts(ts: seq<FuncType>, u: ValueType, v: ValueType) {
    forall w :: Bound(ts, w) && ValueMatches(ts, w, u) ==> ValueMatches(ts, w, v)
  }

  /** Wherever `v` is good enough, `u` is. */
  ghost predicate Serves(ts: seq<FuncType>, u: ValueType, v: ValueType) {
    forall w :: Bound(ts, w) && ValueMatches(ts, v, w) ==> ValueMatches(ts, u, w)
  }

  lemma {:induction false} MatchServes(ts: seq<FuncType>, u: ValueType, v: ValueType)
    requires Finished(ts) && Bound(ts, u) && Bound(ts, v) && ValueMatches(ts, u, v)
    ensures Accepts(ts, u, v) && Serves(ts, u, v)
  {
    hide Finished, Bound, ValueMatches;
    forall w | Bound(ts, w)
      ensures ValueMatches(ts, w, u) ==> ValueMatches(ts, w, v)
      ensures ValueMatches(ts, v, w) ==> ValueMatches(ts, u, w)
    {
      ValuePreorder(ts, w, u, v);
      ValuePreorder(ts, u, v, w);
    }
  }

  /** A subtype can stand in for its supertype: it accepts every argument that the
      supertype accepts, its results serve wherever those of the supertype do, so
      do its fields, and fields that can be assigned also accept the same. */
  lemma {:induction false} Substitution(ts: seq<FuncType>, a: nat, b: nat)
    requires Finished(ts) && Matches(ts, a, b)
    ensures a < |ts| && b < |ts| && ts[a].kind == ts[b].kind
    ensures |ts[a].params| == |ts[b].params| && |ts[a].results| == |ts[b].results| && |ts[a].fields| >= |ts[b].fields|
    ensures forall i :: 0 <= i < |ts[a].params| ==> Accepts(ts, ts[b].params[i].semantic, ts[a].params[i].semantic)
    ensures forall i :: 0 <= i < |ts[a].results| ==> Serves(ts, ts[a].results[i].semantic, ts[b].results[i].semantic)
    ensures forall i :: 0 <= i < |ts[b].fields| ==>
              var x, y := ts[a].fields[i], ts[b].fields[i];
              && x.mutable == y.mutable && x.packed == y.packed && Serves(ts, x.semantic, y.semantic)
              && (y.mutable ==> Accepts(ts, y.semantic, x.semantic) && Serves(ts, y.semantic, x.semantic))
  {
    FinishedLayers(ts);
    hide Finished, Layers, Groups, Same, Accepts, Serves, ValueMatches, Bound;
    MatchesRefines(ts, Groups(ts, []).depths, a, b);
    BoundAll(ts, a);
    BoundAll(ts, b);
    forall u, v | Bound(ts, u) && Bound(ts, v) && ValueMatches(ts, u, v)
      ensures Accepts(ts, u, v) && Serves(ts, u, v)
    {
      MatchServes(ts, u, v);
    }
    assert forall i :: 0 <= i < |ts[b].fields| ==> FieldRefines(ts, ts[a].fields[i], ts[b].fields[i]);
  }

  // ---------------------------------------------------------------- the check is exact

  /** How many supertypes type `a` has. */
  function Height(ts: seq<FuncType>, a: nat): (h: nat)
    decreases a
  {
    if a < |ts| && ts[a].super < a && ts[a].super != MAX32 then 1 + Height(ts, ts[a].super) else 0
  }

  lemma {:induction false} SameHeight(ts: seq<FuncType>, depths: seq<nat>, a: nat, b: nat)
    requires Layers(ts, depths) && Same(ts, a, b)
    ensures Height(ts, a) == Height(ts, b)
    decreases a
  {
    hide Same, Layered;
    SameRange(ts, a, b);
    SupersSame(ts, depths, a, b);
    assert SupersEarlier(ts);
    if ts[a].super != MAX32 {
      SameHeight(ts, depths, ts[a].super, ts[b].super);
    }
  }

  lemma {:induction false} MatchesHeight(ts: seq<FuncType>, depths: seq<nat>, a: nat, b: nat)
    requires Layers(ts, depths) && Matches(ts, a, b)
    ensures Height(ts, b) <= Height(ts, a) && (Height(ts, a) == Height(ts, b) ==> Same(ts, a, b))
    decreases a
  {
    hide Same, Layered;
    if Same(ts, a, b) {
      SameHeight(ts, depths, a, b);
    } else {
      MatchesHeight(ts, depths, ts[a].super, b);
    }
  }

  /** Types that match each other are equal. */
  lemma {:induction false} MutualEqual(ts: seq<FuncType>, u: ValueType, v: ValueType)
    requires Finished(ts) && Bound(ts, u) && Bound(ts, v)
    ensures ValueMatches(ts, u, v) && ValueMatches(ts, v, u) <==> ValueEqual(ts, u, v)
  {
    hide Finished, Groups, Layers, Same, Matches;
    if ValueEqual(ts, u, v) {
      EqualMatches(ts, u, v);
    } else if ValueMatches(ts, u, v) && ValueMatches(ts, v, u) && Named(u) && Named(v) {
      FinishedLayers(ts);
      MatchesHeight(ts, Groups(ts, []).depths, u.typeIndex, v.typeIndex);
      MatchesHeight(ts, Groups(ts, []).depths, v.typeIndex, u.typeIndex);
    }
  }

  lemma {:induction false} FieldExact(ts: seq<FuncType>, x: FieldType, y: FieldType)
    requires Finished(ts) && Bound(ts, x.semantic) && Bound(ts, y.semantic)
    ensures FieldMatches(ts, x, y) <==> FieldRefines(ts, x, y)
  {
    hide Finished, Bound, ValueMatches, ValueEqual;
    MutualEqual(ts, x.semantic, y.semantic);
  }

  /** A declared subtype is accepted exactly if it refines a supertype that is not
      final. */
  lemma {:induction false} SubtypeExact(ts: seq<FuncType>, a: nat, b: nat)
    requires Finished(ts) && a < |ts| && b < |ts|
    ensures SubtypeOf(ts, ts[a], ts[b]) <==> !ts[b].final && Refines(ts, a, b)
  {
    BoundAll(ts, a);
    BoundAll(ts, b);
    hide Finished, Bound, ValueMatches, FieldMatches, FieldRefines;
    forall i | 0 <= i < |ts[a].fields| && i < |ts[b].fields|
      ensures FieldMatches(ts, ts[a].fields[i], ts[b].fields[i]) <==> FieldRefines(ts, ts[a].fields[i], ts[b].fields[i])
    {
      FieldExact(ts, ts[a].fields[i], ts[b].fields[i]);
    }
  }

  // ---------------------------------------------------------------- values

  /** What a value can be: a number, a null reference, a small integer, a function,
      structure or array of one of the module's types or of a type from elsewhere,
      some other internal object, a host reference or an exception. */
  datatype Thing =
    | Number
    | NullReference
    | Small
    | Instance(index: nat)
    | Elsewhere(kind: nat)
    | Internal
    | Host
    | Exception

  /** A value in its carrier. */
  datatype Value = Value(carrier: Byte, thing: Thing)

  /** A value type as the decoder makes it and finalizing binds it; the heap kinds
      by number. */
  predicate Decoded(ts: seq<FuncType>, v: ValueType) {
    && Bound(ts, v)
    && if !v.isReference then v.carrier !in {0x69, 0x6e, 0x6f, 0x70}
       else if v.heapKind in {1, 6} then v.carrier == 0x70
       else if v.heapKind in {2, 7} then v.carrier == 0x6f
       else if v.heapKind in {3, 4} then v.carrier == 0x69
       else if v.heapKind == 5 then v.carrier == if ts[v.typeIndex].kind == 0 then 0x70 else 0x6e
       else 8 <= v.heapKind <= 13 && v.carrier == 0x6e
  }

  /** 0 for functions, 1 for structures, 2 for arrays. */
  function KindOf(ts: seq<FuncType>, x: Thing): Option<nat> {
    match x
    case Instance(i) => if i < |ts| then Some(if ts[i].kind < 2 then ts[i].kind else 2) else None
    case Elsewhere(k) => Some(if k < 2 then k else 2)
    case _ => None
  }

  /** The references of a heap type other than null. */
  ghost predicate InHeap(ts: seq<FuncType>, x: Thing, v: ValueType) {
    match v.heapKind
    case 1 => KindOf(ts, x) == Some(0)
    case 2 => x == Host
    case 3 => x == Exception
    case 5 => x.Instance? && Matches(ts, x.index, v.typeIndex)
    case 8 => x in {Internal, Small} || KindOf(ts, x) in {Some(1), Some(2)}
    case 9 => x == Small || KindOf(ts, x) in {Some(1), Some(2)}
    case 10 => x == Small
    case 11 => KindOf(ts, x) == Some(1)
    case 12 => KindOf(ts, x) == Some(2)
    case _ => false
  }

  /** The values of a value type. */
  ghost predicate Admits(ts: seq<FuncType>, v: ValueType, x: Value) {
    && x.carrier == v.carrier
    && if !v.isReference then x.thing == Number
       else if x.thing == NullReference then v.nullable
       else InHeap(ts, x.thing, v)
  }

  ghost predicate Within(ts: seq<FuncType>, u: ValueType, v: ValueType) {
    forall x :: Admits(ts, u, x) ==> Admits(ts, v, x)
  }

  /** Matching types: every value of the one is a value of the other. */
  lemma {:induction false} MatchesAdmit(ts: seq<FuncType>, depths: seq<nat>, u: ValueType, v: ValueType, x: Value)
    requires Layers(ts, depths) && Decoded(ts, u) && Decoded(ts, v) && ValueMatches(ts, u, v) && Admits(ts, u, x)
    ensures Admits(ts, v, x)
  {
    hide Layered, Matches, Same;
    if Named(u) && u.isReference && x.thing.Instance? {
      MatchesKind(ts, depths, x.thing.index, u.typeIndex);
      if Named(v) {
        MatchesChain(ts, depths, x.thing.index, u.typeIndex, v.typeIndex);
      }
    }
  }

  /** A value that tells `u` from a type `v` that it does not match. */
  function Telling(u: ValueType, v: ValueType): Thing {
    if u.nullable && !v.nullable then NullReference
    else
      match u.heapKind
      case 1 => Elsewhere(0)
      case 2 => Host
      case 3 => Exception
      case 5 => Instance(u.typeIndex)
      case 8 => Internal
      case 9 => if v.heapKind == 11 then Small else Elsewhere(1)
      case 10 => Small
      case 11 => Elsewhere(1)
      case 12 => Elsewhere(2)
      case _ => NullReference
  }

  lemma {:induction false} MismatchTold(ts: seq<FuncType>, u: ValueType, v: ValueType)
    requires Decoded(ts, u) && Decoded(ts, v) && u.carrier == v.carrier && !ValueMatches(ts, u, v)
    ensures Admits(ts, u, Value(u.carrier, Telling(u, v))) && !Admits(ts, v, Value(u.carrier, Telling(u, v)))
  {
    hide Same;
    if Named(u) {
      SameEquivalence(ts, u.typeIndex, u.typeIndex, u.typeIndex);
    }
  }

  /** Matching decides inclusion: a value type matches another of the same carrier
      exactly if every value of the one is a value of the other. */
  lemma {:induction false} MatchesMeans(ts: seq<FuncType>, u: ValueType, v: ValueType)
    requires Finished(ts) && Decoded(ts, u) && Decoded(ts, v)
    ensures ValueMatches(ts, u, v) ==> Within(ts, u, v)
    ensures u.carrier == v.carrier && Within(ts, u, v) ==> ValueMatches(ts, u, v)
  {
    hide Finished, Layers, Groups, ValueMatches, Decoded, Admits;
    FinishedLayers(ts);
    if ValueMatches(ts, u, v) {
      forall x | Admits(ts, u, x)
        ensures Admits(ts, v, x)
      {
        MatchesAdmit(ts, Groups(ts, []).depths, u, v, x);
      }
    } else if u.carrier == v.carrier {
      MismatchTold(ts, u, v);
    }
  }

  ghost predicate AllDecoded(ts: seq<FuncType>, t: FuncType) {
    && (forall i :: 0 <= i < |t.params| ==> Decoded(ts, t.params[i].semantic))
    && (forall i :: 0 <= i < |t.results| ==> Decoded(ts, t.results[i].semantic))
    && (forall i :: 0 <= i < |t.fields| ==> Decoded(ts, t.fields[i].semantic))
  }

  /** Using a subtype through its supertype is safe: an argument for the supertype
      is one for the subtype, results and field contents of the subtype are ones
      of the supertype, and what may be assigned through the supertype may be
      assigned. */
  lemma {:induction false} UseSafe(ts: seq<FuncType>, a: nat, b: nat)
    requires Finished(ts) && Matches(ts, a, b)
    requires a < |ts| && b < |ts| && AllDecoded(ts, ts[a]) && AllDecoded(ts, ts[b])
    ensures var s, t := ts[a], ts[b];
            && |s.params| == |t.params| && |s.results| == |t.results| && |s.fields| >= |t.fields|
            && (forall i :: 0 <= i < |t.params| ==> Within(ts, t.params[i].semantic, s.params[i].semantic))
            && (forall i :: 0 <= i < |t.results| ==> Within(ts, s.results[i].semantic, t.results[i].semantic))
            && (forall i :: 0 <= i < |t.fields| ==> Within(ts, s.fields[i].semantic, t.fields[i].semantic))
            && (forall i :: 0 <= i < |t.fields| && t.fields[i].mutable ==>
                 Within(ts, t.fields[i].semantic, s.fields[i].semantic))
  {
    FinishedLayers(ts);
    hide Finished, Layers, Groups, Same, ValueMatches, Decoded, Within;
    MatchesRefines(ts, Groups(ts, []).depths, a, b);
    forall u, v | Decoded(ts, u) && Decoded(ts, v) && ValueMatches(ts, u, v)
      ensures Within(ts, u, v)
    {
      MatchesMeans(ts, u, v);
    }
    assert forall i :: 0 <= i < |ts[b].fields| ==> FieldRefines(ts, ts[a].fields[i], ts[b].fields[i]);
  }
}
