/**
  Who owns an end: nobody but the caller, a handle table, a canonical value, or
  a canonical value with a handle reserved for it (src/component_endpoint.c,
  src/component_waitable.c).
 */
module EndpointOwnership {
  import opened Common
  import opened AsyncState
  import opened EndpointModel

  // ---------------------------------------------------------------- invariant

  /** An end that a value holds can only be told that its peer is gone. */
  predicate Frozen(E: End) {
    E.readable && E.initialized && !E.closed && E.operation == NULL && E.available == NULL && E.state.phase.Idle?
      && E.failure == Ok
  }

  /** The ownership fields of one end agree with each other ... */
  predicate ShapeOk(O: Own) {
    && (O.table != NULL ==> O.handle != 0 && O.valueOwner == NULL)
    && (O.table == NULL ==> O.handle == 0 && O.setHandle == 0 && !O.syncWaiter)
    && (O.syncWaiter ==> O.setHandle == 0)
    && (O.lowerScope != NULL ==> O.valueOwner != NULL && O.lowerHandle != 0)
    && (O.lowerScope == NULL ==> O.lowerHandle == 0)
  }

  /** ... and with the state of the end. */
  predicate OwnOk(E: End, O: Own) {
    && (O.table != NULL ==> E.initialized && !E.closed)
    && (O.valueOwner != NULL ==> Frozen(E))
  }

  ghost predicate EachOwnOk(w: World)
    requires w.p.ends.Keys == w.o.owns.Keys
  {
    forall e :: e in w.o.owns ==> OwnOk(w.p.ends[e], w.o.owns[e])
  }

  /** The slot `h` of table `t` holds `e`. */
  ghost predicate Holds(o: Owners, t: Ref, h: nat, e: Ref) {
    t in o.tables && h in o.tables[t].entries && o.tables[t].entries[h] == e
  }

  /** The value `v` refers to `e`. */
  ghost predicate Refers(o: Owners, v: Ref, e: Ref) {
    v in o.owners && o.owners[v].endpoint == e
  }

  /** `e` claims the slot `h` of table `t`, published or reserved. */
  ghost predicate Claims(o: Owners, e: Ref, t: Ref, h: nat)
    requires e in o.owns
  {
    || (o.owns[e].table == t && o.owns[e].handle == h)
    || (o.owns[e].lowerScope != NULL && o.owns[e].lowerScope in o.codecs && o.codecs[o.owns[e].lowerScope].table == t
      && o.owns[e].lowerHandle == h)
  }

  /** What `e` claims, it holds. */
  ghost predicate ClaimsHeld(o: Owners, e: Ref)
    requires e in o.owns
  {
    && (o.owns[e].table != NULL ==> Holds(o, o.owns[e].table, o.owns[e].handle, e))
    && (o.owns[e].lowerScope != NULL ==>
         o.owns[e].lowerScope in o.codecs && Holds(o, o.codecs[o.owns[e].lowerScope].table, o.owns[e].lowerHandle, e))
  }

  /** Every slot that holds `e` is claimed by it and will not be handed out again. */
  ghost predicate SlotsClaimed(o: Owners, e: Ref)
    requires e in o.owns
  {
    forall t: Ref, h: nat :: Holds(o, t, h, e) ==> h < o.tables[t].next && Claims(o, e, t, h)
  }

  /** The value that holds `e`, and no other value, refers to it. */
  ghost predicate RecordsOk(o: Owners, e: Ref)
    requires e in o.owns
  {
    && (o.owns[e].valueOwner != NULL ==> Refers(o, o.owns[e].valueOwner, e))
    && (forall v: Ref :: Refers(o, v, e) ==> o.owns[e].valueOwner == v)
  }

  /** `e` is in the chain of its lowering scope and in no other. */
  ghost predicate ChainsOk(o: Owners, e: Ref)
    requires e in o.owns
  {
    && (o.owns[e].lowerScope != NULL ==> o.owns[e].lowerScope in o.codecs && e in o.codecs[o.owns[e].lowerScope].chain)
    && (forall c :: c in o.codecs && e in o.codecs[c].chain ==> o.owns[e].lowerScope == c)
  }

  ghost predicate PlaceOk(o: Owners, e: Ref)
    requires e in o.owns
  {
    ShapeOk(o.owns[e]) && ClaimsHeld(o, e) && SlotsClaimed(o, e) && RecordsOk(o, e) && ChainsOk(o, e)
  }

  predicate NoDuplicates(s: seq<Ref>) {
    forall i, j :: 0 <= i < j < |s| ==> s[i] != s[j]
  }

  /** Tables, values and chains only refer to known ends. */
  ghost predicate AddressesOk(o: Owners) {
    && NULL !in o.owns && NULL !in o.tables && NULL !in o.owners && NULL !in o.codecs
    && (forall t :: t in o.tables ==> o.tables[t].next > 0)
    && (forall t, h :: t in o.tables && h in o.tables[t].entries ==> o.tables[t].entries[h] in o.owns)
    && (forall v :: v in o.owners && o.owners[v].endpoint != NULL ==> o.owners[v].endpoint in o.owns)
    && (forall c :: c in o.codecs ==> o.codecs[c].table in o.tables && NoDuplicates(o.codecs[c].chain))
    && (forall c, e :: c in o.codecs && e in o.codecs[c].chain ==> e in o.owns)
  }

  ghost predicate OwnersInv(o: Owners) {
    AddressesOk(o) && forall e :: e in o.owns ==> PlaceOk(o, e)
  }

  ghost predicate OwnInv(w: World) {
    w.p.ends.Keys == w.o.owns.Keys && EachOwnOk(w) && OwnersInv(w.o)
  }

  // ---------------------------------------------------------------- one owner

  /** Every reference to an end: table slots and live values. */
  ghost predicate SingleOwner(o: Owners, e: Ref) {
    && (forall t: Ref, h: nat, t': Ref, h': nat :: Holds(o, t, h, e) && Holds(o, t', h', e) ==> t == t' && h == h')
    && (forall v: Ref, v': Ref :: Refers(o, v, e) && Refers(o, v', e) ==> v == v')
    && (forall t: Ref, h: nat, v: Ref :: Holds(o, t, h, e) && Refers(o, v, e) ==>
         e in o.owns && o.owns[e].lowerScope != NULL)
  }

  /** At every moment an end sits in at most one table slot and in at most one
      value, and in both only while its handle is reserved and not published. */
  lemma {:induction false} OneOwner(w: World, e: Ref)
    requires OwnInv(w) && e in w.o.owns
    ensures SingleOwner(w.o, e)
  {
    var o := w.o;
    assert PlaceOk(o, e);
    forall t: Ref, h: nat | Holds(o, t, h, e)
      ensures if o.owns[e].table != NULL then t == o.owns[e].table && h == o.owns[e].handle
              else
                && o.owns[e].lowerScope != NULL && o.owns[e].lowerScope in o.codecs
                && t == o.codecs[o.owns[e].lowerScope].table && h == o.owns[e].lowerHandle
    {
      assert Claims(o, e, t, h);
    }
  }

  // ---------------------------------------------------------------- primitive moves

  predicate HasRoom(t: TableV) {
    |t.entries| < t.max
  }

  function Inserted(t: TableV, e: Ref): TableV {
    t.(entries := t.entries[t.next := e], next := t.next + 1)
  }

  /** Gives the unowned end `e` the next handle of table `t`. */
  ghost function Publish(o: Owners, e: Ref, t: Ref): Owners
    requires e in o.owns && t in o.tables
  {
    o.(owns := o.owns[e := o.owns[e].(table := t, handle := o.tables[t].next)],
      tables := o.tables[t := Inserted(o.tables[t], e)])
  }

  /** Puts the unowned end `e` into the new value `v`. */
  ghost function Bind(o: Owners, e: Ref, v: Ref): Owners
    requires e in o.owns
  {
    o.(owns := o.owns[e := o.owns[e].(valueOwner := v)], owners := o.owners[v := OwnerV(e, false, false)])
  }

  /** Takes `e` out of its value `v`, which is freed. */
  ghost function Unbind(o: Owners, e: Ref, v: Ref): Owners
    requires e in o.owns
  {
    o.(owns := o.owns[e := o.owns[e].(valueOwner := NULL)], owners := o.owners - {v})
  }

  /** Reserves the next handle of the codec's table for `e`. */
  ghost function Reserve(o: Owners, c: Ref, e: Ref): Owners
    requires e in o.owns && c in o.codecs && o.codecs[c].table in o.tables
  {
    var t := o.codecs[c].table;
    o.(owns := o.owns[e := o.owns[e].(lowerScope := c, lowerHandle := o.tables[t].next)],
       tables := o.tables[t := Inserted(o.tables[t], e)],
       codecs := o.codecs[c := o.codecs[c].(chain := [e] + o.codecs[c].chain)])
  }

  /** Only the whereabouts of `e` changed. */
  ghost predicate OnlyMoved(o: Owners, q: Owners, e: Ref) {
    && e in o.owns && q.owns.Keys == o.owns.Keys && q.tables.Keys == o.tables.Keys && q.codecs.Keys == o.codecs.Keys
    && (forall x :: x in o.owns && x != e ==> q.owns[x] == o.owns[x])
    && (forall t :: t in o.tables ==> q.tables[t].next >= o.tables[t].next)
    && (forall t: Ref, h: nat, x: Ref :: x != e ==> (Holds(q, t, h, x) <==> Holds(o, t, h, x)))
    && (forall v: Ref, x: Ref :: x != e && x != NULL ==> (Refers(q, v, x) <==> Refers(o, v, x)))
    && (forall c :: c in o.codecs ==> q.codecs[c].table == o.codecs[c].table)
    && (forall c, x :: c in o.codecs && x != e ==> (x in q.codecs[c].chain <==> x in o.codecs[c].chain))
  }

  lemma {:induction false} OthersStay(o: Owners, q: Owners, e: Ref, x: Ref)
    requires OnlyMoved(o, q, e) && x in o.owns && x != e && x != NULL && PlaceOk(o, x)
    ensures PlaceOk(q, x)
  {
  }

  lemma {:induction false} MoveKeeps(o: Owners, q: Owners, e: Ref)
    requires OwnersInv(o) && OnlyMoved(o, q, e) && AddressesOk(q) && PlaceOk(q, e)
    ensures OwnersInv(q)
  {
    assert q.owns.Keys == o.owns.Keys && NULL !in o.owns;
    hide PlaceOk, OnlyMoved, AddressesOk;
    forall x | x in q.owns
      ensures PlaceOk(q, x)
    {
      if x != e {
        OthersStay(o, q, e, x);
      }
    }
  }

  lemma {:induction false} PublishMoves(o: Owners, e: Ref, t: Ref)
    requires AddressesOk(o) && e in o.owns && t in o.tables && o.tables[t].next !in o.tables[t].entries
    ensures OnlyMoved(o, Publish(o, e, t), e)
  {
  }

  /** The next handle of a table is free. */
  lemma {:induction false} NextIsFree(o: Owners, t: Ref)
    requires OwnersInv(o) && t in o.tables
    ensures o.tables[t].next !in o.tables[t].entries
  {
    forall h: nat | h in o.tables[t].entries
      ensures h < o.tables[t].next
    {
      assert PlaceOk(o, o.tables[t].entries[h]);
      assert Holds(o, t, h, o.tables[t].entries[h]);
    }
  }

  lemma {:induction false} PublishAddresses(o: Owners, e: Ref, t: Ref)
    requires AddressesOk(o) && e in o.owns && t in o.tables
    ensures AddressesOk(Publish(o, e, t))
  {
    hide NoDuplicates;
  }

  lemma {:induction false} PublishPlace(o: Owners, e: Ref, t: Ref)
    requires AddressesOk(o) && e in o.owns && t in o.tables && PlaceOk(o, e)
    requires o.owns[e].table == NULL && o.owns[e].valueOwner == NULL
    ensures PlaceOk(Publish(o, e, t), e)
  {
    var q := Publish(o, e, t);
    forall t': Ref, h: nat | Holds(q, t', h, e)
      ensures (t' == t && h == o.tables[t].next) || Holds(o, t', h, e)
    {
    }
    forall v: Ref | Refers(q, v, e)
      ensures Refers(o, v, e)
    {
    }
  }

  lemma {:induction false} PublishKeeps(o: Owners, e: Ref, t: Ref)
    requires OwnersInv(o) && e in o.owns && t in o.tables
    requires o.owns[e].table == NULL && o.owns[e].valueOwner == NULL
    ensures OwnersInv(Publish(o, e, t))
  {
    assert PlaceOk(o, e) && AddressesOk(o);
    hide OwnersInv, PlaceOk, AddressesOk, Publish, OnlyMoved;
    NextIsFree(o, t);
    PublishMoves(o, e, t);
    PublishAddresses(o, e, t);
    PublishPlace(o, e, t);
    MoveKeeps(o, Publish(o, e, t), e);
  }

  // The other moves follow the same three steps.

  lemma {:induction false} UnregisterMoves(o: Owners, e: Ref)
    requires AddressesOk(o) && e in o.owns && o.owns[e].table != NULL && ClaimsHeld(o, e)
    ensures OnlyMoved(o, Unregister(o, e), e)
  {
  }

  lemma {:induction false} UnregisterAddresses(o: Owners, e: Ref)
    requires AddressesOk(o) && e in o.owns && o.owns[e].table in o.tables
    ensures AddressesOk(Unregister(o, e))
  {
    hide NoDuplicates;
  }

  lemma {:induction false} UnregisterPlace(o: Owners, e: Ref)
    requires AddressesOk(o) && e in o.owns && PlaceOk(o, e) && o.owns[e].table != NULL && !o.owns[e].syncWaiter
    ensures PlaceOk(Unregister(o, e), e)
  {
    var q := Unregister(o, e);
    forall t: Ref, h: nat | Holds(q, t, h, e)
      ensures Holds(o, t, h, e)
    {
    }
    forall v: Ref | Refers(q, v, e)
      ensures Refers(o, v, e)
    {
    }
  }

  lemma {:induction false} UnregisterKeeps(o: Owners, e: Ref)
    requires OwnersInv(o) && e in o.owns && !o.owns[e].syncWaiter
    ensures OwnersInv(Unregister(o, e)) && Unregister(o, e).owns.Keys == o.owns.Keys
  {
    assert PlaceOk(o, e) && AddressesOk(o);
    if o.owns[e].table != NULL {
      UnregisterMoves(o, e);
      UnregisterAddresses(o, e);
      UnregisterPlace(o, e);
      assert OnlyMoved(o, Unregister(o, e), e);
      hide *;
      MoveKeeps(o, Unregister(o, e), e);
      assert Unregister(o, e).owns.Keys == o.owns.Keys by {
        OnlyMovedKeys(o, Unregister(o, e), e);
      }
    }
  }

  lemma {:induction false} OnlyMovedKeys(o: Owners, q: Owners, e: Ref)
    requires OnlyMoved(o, q, e)
    ensures q.owns.Keys == o.owns.Keys
  {
  }

  lemma {:induction false} BindMoves(o: Owners, e: Ref, v: Ref)
    requires AddressesOk(o) && e in o.owns && v !in o.owners
    ensures OnlyMoved(o, Bind(o, e, v), e)
  {
  }

  lemma {:induction false} BindPlace(o: Owners, e: Ref, v: Ref)
    requires AddressesOk(o) && e in o.owns && PlaceOk(o, e) && v !in o.owners && v != NULL
    requires o.owns[e].table == NULL && o.owns[e].valueOwner == NULL
    ensures PlaceOk(Bind(o, e, v), e)
  {
    var q := Bind(o, e, v);
    forall t: Ref, h: nat | Holds(q, t, h, e)
      ensures Holds(o, t, h, e)
    {
    }
    forall u: Ref | Refers(q, u, e)
      ensures u == v || Refers(o, u, e)
    {
    }
  }

  lemma {:induction false} BindAddresses(o: Owners, e: Ref, v: Ref)
    requires AddressesOk(o) && e in o.owns && v != NULL
    ensures AddressesOk(Bind(o, e, v))
  {
    hide NoDuplicates;
  }

  lemma {:induction false} BindKeeps(o: Owners, e: Ref, v: Ref)
    requires OwnersInv(o) && e in o.owns && v !in o.owners && v != NULL
    requires o.owns[e].table == NULL && o.owns[e].valueOwner == NULL
    ensures OwnersInv(Bind(o, e, v))
  {
    assert PlaceOk(o, e) && AddressesOk(o);
    hide OwnersInv, PlaceOk, AddressesOk, Bind, OnlyMoved;
    BindMoves(o, e, v);
    BindAddresses(o, e, v);
    BindPlace(o, e, v);
    MoveKeeps(o, Bind(o, e, v), e);
  }

  lemma {:induction false} UnbindMoves(o: Owners, e: Ref, v: Ref)
    requires AddressesOk(o) && e in o.owns && Refers(o, v, e)
    ensures OnlyMoved(o, Unbind(o, e, v), e)
  {
  }

  lemma {:induction false} UnbindAddresses(o: Owners, e: Ref, v: Ref)
    requires AddressesOk(o) && e in o.owns
    ensures AddressesOk(Unbind(o, e, v))
  {
    hide NoDuplicates;
  }

  lemma {:induction false} UnbindPlace(o: Owners, e: Ref, v: Ref)
    requires AddressesOk(o) && e in o.owns && PlaceOk(o, e) && o.owns[e].valueOwner == v && v != NULL
    requires o.owns[e].lowerScope == NULL
    ensures PlaceOk(Unbind(o, e, v), e)
  {
    var q := Unbind(o, e, v);
    forall t: Ref, h: nat | Holds(q, t, h, e)
      ensures Holds(o, t, h, e)
    {
    }
    forall u: Ref | Refers(q, u, e)
      ensures Refers(o, u, e) && u != v
    {
    }
  }

  lemma {:induction false} UnbindKeeps(o: Owners, e: Ref, v: Ref)
    requires OwnersInv(o) && e in o.owns && o.owns[e].valueOwner == v && v != NULL && o.owns[e].lowerScope == NULL
    ensures OwnersInv(Unbind(o, e, v))
  {
    assert PlaceOk(o, e) && AddressesOk(o) && Refers(o, v, e);
    hide OwnersInv, PlaceOk, AddressesOk, Unbind, OnlyMoved;
    UnbindMoves(o, e, v);
    UnbindAddresses(o, e, v);
    UnbindPlace(o, e, v);
    MoveKeeps(o, Unbind(o, e, v), e);
  }

  lemma {:induction false} ReserveMoves(o: Owners, c: Ref, e: Ref)
    requires AddressesOk(o) && e in o.owns && c in o.codecs
    requires var t := o.codecs[c].table; t in o.tables && o.tables[t].next !in o.tables[t].entries
    ensures OnlyMoved(o, Reserve(o, c, e), e)
  {
    hide NoDuplicates;
  }

  lemma {:induction false} ReserveAddresses(o: Owners, c: Ref, e: Ref)
    requires AddressesOk(o) && e in o.owns && c in o.codecs && e !in o.codecs[c].chain
    ensures AddressesOk(Reserve(o, c, e))
  {
    assert NoDuplicates([e] + o.codecs[c].chain);
    hide NoDuplicates;
  }

  lemma {:induction false} ReservePlace(o: Owners, c: Ref, e: Ref)
    requires AddressesOk(o) && e in o.owns && c in o.codecs && PlaceOk(o, e)
    requires o.owns[e].table == NULL && o.owns[e].valueOwner != NULL && o.owns[e].lowerScope == NULL
    ensures PlaceOk(Reserve(o, c, e), e)
  {
    var q, t := Reserve(o, c, e), o.codecs[c].table;
    forall t': Ref, h: nat | Holds(q, t', h, e)
      ensures (t' == t && h == o.tables[t].next) || Holds(o, t', h, e)
    {
    }
    forall v: Ref | Refers(q, v, e)
      ensures Refers(o, v, e)
    {
    }
    hide NoDuplicates;
  }

  lemma {:induction false} ReserveKeeps(o: Owners, c: Ref, e: Ref)
    requires OwnersInv(o) && e in o.owns && c in o.codecs
    requires o.owns[e].table == NULL && o.owns[e].valueOwner != NULL && o.owns[e].lowerScope == NULL
    ensures OwnersInv(Reserve(o, c, e))
  {
    assert PlaceOk(o, e) && AddressesOk(o) && e !in o.codecs[c].chain;
    NextIsFree(o, o.codecs[c].table);
    ReserveMoves(o, c, e);
    ReserveAddresses(o, c, e);
    ReservePlace(o, c, e);
    hide *;
    MoveKeeps(o, Reserve(o, c, e), e);
  }

  // ---------------------------------------------------------------- finishing a lowering scope

  predicate Pinned(o: Owners, c: Ref) {
    c in o.codecs && o.codecs[c].chain != [] && o.codecs[c].table in o.tables && o.codecs[c].chain[0] in o.owns
  }

  /** A value whose end was published. */
  const INERT := OwnerV(NULL, false, false)

  /** Publishes the head of the chain and makes its value inert. */
  ghost function CommitOne(o: Owners, c: Ref): Owners
    requires Pinned(o, c)
  {
    var e := o.codecs[c].chain[0];
    var O := o.owns[e];
    o.(owns :=
      o.owns[e :=
      O.(table := o.codecs[c].table, handle := O.lowerHandle, valueOwner := NULL, lowerScope := NULL,
      lowerHandle := 0)],
       owners := if O.valueOwner in o.owners then o.owners[O.valueOwner := INERT] else o.owners,
       codecs := o.codecs[c := o.codecs[c].(chain := o.codecs[c].chain[1..])])
  }

  /** Gives the reserved handle of the head of the chain back. */
  ghost function RollbackOne(o: Owners, c: Ref): Owners
    requires Pinned(o, c)
  {
    var e, t := o.codecs[c].chain[0], o.codecs[c].table;
    var O := o.owns[e];
    o.(owns := o.owns[e := O.(lowerScope := NULL, lowerHandle := 0)],
       tables := o.tables[t := o.tables[t].(entries := o.tables[t].entries - {O.lowerHandle})],
       codecs := o.codecs[c := o.codecs[c].(chain := o.codecs[c].chain[1..])])
  }

  lemma {:induction false} TailFacts(s: seq<Ref>)
    requires s != [] && NoDuplicates(s)
    ensures NoDuplicates(s[1..]) && s[0] !in s[1..] && forall x :: x != s[0] ==> (x in s[1..] <==> x in s)
  {
    assert s == [s[0]] + s[1..];
  }

  lemma {:induction false} CommitOneMoves(o: Owners, c: Ref)
    requires AddressesOk(o) && Pinned(o, c) && PlaceOk(o, o.codecs[c].chain[0])
    ensures OnlyMoved(o, CommitOne(o, c), o.codecs[c].chain[0])
  {
    TailFacts(o.codecs[c].chain);
    hide NoDuplicates;
  }

  lemma {:induction false} CommitOneAddresses(o: Owners, c: Ref)
    requires AddressesOk(o) && Pinned(o, c)
    ensures AddressesOk(CommitOne(o, c))
  {
    TailFacts(o.codecs[c].chain);
    hide NoDuplicates;
  }

  lemma {:induction false} CommitOnePlace(o: Owners, c: Ref)
    requires AddressesOk(o) && Pinned(o, c) && PlaceOk(o, o.codecs[c].chain[0])
    ensures PlaceOk(CommitOne(o, c), o.codecs[c].chain[0])
  {
    TailFacts(o.codecs[c].chain);
    var e, q := o.codecs[c].chain[0], CommitOne(o, c);
    assert e in o.codecs[c].chain;
    forall t: Ref, h: nat | Holds(q, t, h, e)
      ensures Holds(o, t, h, e)
    {
    }
    forall v: Ref | Refers(q, v, e)
      ensures Refers(o, v, e) && v != o.owns[e].valueOwner
    {
    }
    hide NoDuplicates;
  }

  lemma {:induction false} CommitOneKeeps(o: Owners, c: Ref)
    requires OwnersInv(o) && Pinned(o, c)
    ensures OwnersInv(CommitOne(o, c))
  {
    var e := o.codecs[c].chain[0];
    assert PlaceOk(o, e) && AddressesOk(o);
    CommitOneMoves(o, c);
    CommitOneAddresses(o, c);
    CommitOnePlace(o, c);
    hide *;
    MoveKeeps(o, CommitOne(o, c), e);
  }

  lemma {:induction false} RollbackOneMoves(o: Owners, c: Ref)
    requires AddressesOk(o) && Pinned(o, c) && PlaceOk(o, o.codecs[c].chain[0])
    ensures OnlyMoved(o, RollbackOne(o, c), o.codecs[c].chain[0])
  {
    TailFacts(o.codecs[c].chain);
    assert o.codecs[c].chain[0] in o.codecs[c].chain;
    hide NoDuplicates;
  }

  lemma {:induction false} RollbackOneAddresses(o: Owners, c: Ref)
    requires AddressesOk(o) && Pinned(o, c)
    ensures AddressesOk(RollbackOne(o, c))
  {
    TailFacts(o.codecs[c].chain);
    hide NoDuplicates;
  }

  lemma {:induction false} RollbackOnePlace(o: Owners, c: Ref)
    requires AddressesOk(o) && Pinned(o, c) && PlaceOk(o, o.codecs[c].chain[0])
    ensures PlaceOk(RollbackOne(o, c), o.codecs[c].chain[0])
  {
    TailFacts(o.codecs[c].chain);
    var e, q := o.codecs[c].chain[0], RollbackOne(o, c);
    assert e in o.codecs[c].chain;
    forall t: Ref, h: nat | Holds(q, t, h, e)
      ensures Holds(o, t, h, e)
    {
    }
    forall v: Ref | Refers(q, v, e)
      ensures Refers(o, v, e)
    {
    }
    hide NoDuplicates;
  }

  lemma {:induction false} RollbackOneKeeps(o: Owners, c: Ref)
    requires OwnersInv(o) && Pinned(o, c)
    ensures OwnersInv(RollbackOne(o, c))
  {
    var e := o.codecs[c].chain[0];
    assert PlaceOk(o, e) && AddressesOk(o);
    RollbackOneMoves(o, c);
    RollbackOneAddresses(o, c);
    RollbackOnePlace(o, c);
    hide *;
    MoveKeeps(o, RollbackOne(o, c), e);
  }
}
