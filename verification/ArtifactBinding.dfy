/**
  The last step of restoring an artifact (src/artifact.c): the value types outside
  the type section are bound to the restored types.
 */
module ArtifactBinding {
  import opened Common
  import opened Bytes
  import opened ArtifactRecords
  import opened DefinedTypes
  import opened ArtifactCore
  import opened ArtifactState

  predicate FunctionsBindable(kinds: seq<nat>, xs: seq<Function>) {
    forall i :: 0 <= i < |xs| ==> AllBindable(kinds, xs[i].locals)
  }

  predicate GlobalsBindable(kinds: seq<nat>, xs: seq<Global>) {
    forall i :: 0 <= i < |xs| ==> Bindable(kinds, xs[i].semantic)
  }

  predicate TablesBindable(kinds: seq<nat>, xs: seq<Table>) {
    forall i :: 0 <= i < |xs| ==> Bindable(kinds, xs[i].semantic)
  }

  predicate ElementsBindable(kinds: seq<nat>, xs: seq<Element>) {
    forall i :: 0 <= i < |xs| ==> Bindable(kinds, xs[i].semantic)
  }

  /** `bind_state_types` succeeds. */
  predicate ContextBindable(c: Core, s: State) {
    var kinds := Kinds(c.types);
    && FunctionsBindable(kinds, c.functions) && GlobalsBindable(kinds, s.globals)
    && TablesBindable(kinds, s.tables) && ElementsBindable(kinds, s.elements)
  }

  /** Binding a local leaves the byte that was stored beside it alone. */
  function BindLocals(kinds: seq<nat>, xs: seq<Typed>): (ys: seq<Typed>)
    ensures |ys| == |xs| && forall i :: 0 <= i < |xs| ==> ys[i] == xs[i].(semantic := Rebind(kinds, xs[i].semantic))
  {
    seq(|xs|, i requires 0 <= i < |xs| => xs[i].(semantic := Rebind(kinds, xs[i].semantic)))
  }

  function BindFunctions(kinds: seq<nat>, xs: seq<Function>): (ys: seq<Function>)
    ensures |ys| == |xs| && forall i :: 0 <= i < |xs| ==> ys[i] == xs[i].(locals := BindLocals(kinds, xs[i].locals))
  {
    seq(|xs|, i requires 0 <= i < |xs| => xs[i].(locals := BindLocals(kinds, xs[i].locals)))
  }

  function BindGlobals(kinds: seq<nat>, xs: seq<Global>): (ys: seq<Global>)
    ensures |ys| == |xs| && forall i :: 0 <= i < |xs| ==> ys[i] == xs[i].(semantic := Rebind(kinds, xs[i].semantic))
  {
    seq(|xs|, i requires 0 <= i < |xs| => xs[i].(semantic := Rebind(kinds, xs[i].semantic)))
  }

  function BindTables(kinds: seq<nat>, xs: seq<Table>): (ys: seq<Table>)
    ensures |ys| == |xs| && forall i :: 0 <= i < |xs| ==> ys[i] == xs[i].(semantic := Rebind(kinds, xs[i].semantic))
  {
    seq(|xs|, i requires 0 <= i < |xs| => xs[i].(semantic := Rebind(kinds, xs[i].semantic)))
  }

  function BindElements(kinds: seq<nat>, xs: seq<Element>): (ys: seq<Element>)
    ensures |ys| == |xs| && forall i :: 0 <= i < |xs| ==> ys[i] == xs[i].(semantic := Rebind(kinds, xs[i].semantic))
  {
    seq(|xs|, i requires 0 <= i < |xs| => xs[i].(semantic := Rebind(kinds, xs[i].semantic)))
  }

  /** `bind_state_types`. */
  function BoundCore(c: Core): Core {
    c.(functions := BindFunctions(Kinds(c.types), c.functions))
  }

  function BoundState(c: Core, s: State): State {
    var kinds := Kinds(c.types);
    s.(globals := BindGlobals(kinds, s.globals), tables := BindTables(kinds, s.tables),
      elements := BindElements(kinds, s.elements))
  }

  // ---------------------------------------------------------------- contexts that are left alone

  predicate LocalsCarried(kinds: seq<nat>, xs: seq<Typed>) {
    forall i :: 0 <= i < |xs| ==> Carried(kinds, xs[i].semantic)
  }

  /** Every value type that names a type has the carrier of that type, and the store
      is known to be needed if there are composite types. */
  predicate ContextSettled(c: Core, s: State) {
    var kinds := Kinds(c.types);
    && AllBound(c.types) && (AnyComposite(c.types) ==> c.requiresStore)
    && (forall i :: 0 <= i < |c.functions| ==> LocalsCarried(kinds, c.functions[i].locals))
    && (forall i :: 0 <= i < |s.globals| ==> Carried(kinds, s.globals[i].semantic))
    && (forall i :: 0 <= i < |s.tables| ==> Carried(kinds, s.tables[i].semantic))
    && (forall i :: 0 <= i < |s.elements| ==> Carried(kinds, s.elements[i].semantic))
  }

  lemma {:induction false} CarriedMeans(kinds: seq<nat>, v: ValueType)
    ensures Carried(kinds, v) <==> Rebind(kinds, v) == v
  {
  }

  lemma {:induction false} LocalsKept(kinds: seq<nat>, xs: seq<Typed>)
    ensures LocalsCarried(kinds, xs) <==> BindLocals(kinds, xs) == xs
  {
    hide Carried, Rebind;
    forall i | 0 <= i < |xs|
      ensures Carried(kinds, xs[i].semantic) <==> BindLocals(kinds, xs)[i] == xs[i]
    {
      CarriedMeans(kinds, xs[i].semantic);
    }
  }

  lemma {:induction false} FunctionsKept(kinds: seq<nat>, xs: seq<Function>)
    ensures (forall i :: 0 <= i < |xs| ==> LocalsCarried(kinds, xs[i].locals)) <==> BindFunctions(kinds, xs) == xs
  {
    hide LocalsCarried, BindLocals;
    forall i | 0 <= i < |xs|
      ensures LocalsCarried(kinds, xs[i].locals) <==> BindFunctions(kinds, xs)[i] == xs[i]
    {
      LocalsKept(kinds, xs[i].locals);
    }
  }

  lemma {:induction false} StateKept(c: Core, s: State)
    ensures BoundState(c, s) == s <==>
            var kinds := Kinds(c.types);
            && (forall i :: 0 <= i < |s.globals| ==> Carried(kinds, s.globals[i].semantic))
            && (forall i :: 0 <= i < |s.tables| ==> Carried(kinds, s.tables[i].semantic))
            && (forall i :: 0 <= i < |s.elements| ==> Carried(kinds, s.elements[i].semantic))
  {
    var kinds := Kinds(c.types);
    hide Carried, Rebind, Kinds;
    forall v
      ensures Carried(kinds, v) <==> Rebind(kinds, v) == v
    {
      CarriedMeans(kinds, v);
    }
    assert (forall i :: 0 <= i < |s.globals| ==> Carried(kinds, s.globals[i].semantic)) <==>
        BindGlobals(kinds, s.globals) == s.globals by {
      assert forall i :: 0 <= i < |s.globals| ==>
          (Carried(kinds, s.globals[i].semantic) <==> BindGlobals(kinds, s.globals)[i] == s.globals[i]);
    }
    assert (forall i :: 0 <= i < |s.tables| ==> Carried(kinds, s.tables[i].semantic)) <==>
        BindTables(kinds, s.tables) == s.tables by {
      assert forall i :: 0 <= i < |s.tables| ==>
          (Carried(kinds, s.tables[i].semantic) <==> BindTables(kinds, s.tables)[i] == s.tables[i]);
    }
    assert (forall i :: 0 <= i < |s.elements| ==> Carried(kinds, s.elements[i].semantic)) <==>
        BindElements(kinds, s.elements) == s.elements by {
      assert forall i :: 0 <= i < |s.elements| ==>
          (Carried(kinds, s.elements[i].semantic) <==> BindElements(kinds, s.elements)[i] == s.elements[i]);
    }
  }

  /** Finalizing and binding leave a context as it is exactly if it is settled. */
  lemma {:induction false} SettledMeans(c: Core, s: State)
    ensures ContextSettled(c, s) <==> BoundCore(Final(c)) == c && BoundState(Final(c), s) == s
  {
    var kinds := Kinds(c.types);
    ReboundKinds(c.types);
    BoundUnchanged(c.types);
    FunctionsKept(kinds, c.functions);
    StateKept(Final(c), s);
    hide BindFunctions, BoundState, Carried, LocalsCarried, Rebound, AllBound, AnyComposite, Kinds;
  }
}
