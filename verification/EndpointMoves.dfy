/**
  Moving ends between owners: opening pairs, handle tables, waiters, canonical
  values and lowering scopes, as steps of the same state machine.
 */
module EndpointMoves {
  import opened Common
  import opened AsyncState
  import opened EndpointModel
  import opened EndpointInvariant
  import opened EndpointFlow
  import opened EndpointOwnership
  import opened EndpointTransactions
  import opened EndpointHomes
  import opened EndpointSteps

  /** A step that only changes who owns what. */
  lemma {:induction false} OwnStep(w: World, o: Owners)
    requires Inv(w) && OwnersInv(o) && o.owns.Keys == w.o.owns.Keys
    requires forall e :: e in o.owns ==> OwnOk(w.p.ends[e], o.owns[e])
    ensures Inv(w.(o := o))
  {
    hide PairInv, Conserved, HomesOk, ReleasedOk, OwnersInv, OwnOk;
  }

  /** Only `e` moved. */
  lemma {:induction false} OwnMove(w: World, o: Owners, e: Ref)
    requires Inv(w) && OwnersInv(o) && o.owns.Keys == w.o.owns.Keys && e in o.owns
    requires forall x :: x in o.owns && x != e ==> o.owns[x] == w.o.owns[x]
    requires OwnOk(w.p.ends[e], o.owns[e])
    ensures Inv(w.(o := o))
  {
    hide PairInv, Conserved, HomeInv, OwnersInv, OwnOk;
    forall x | x in o.owns
      ensures OwnOk(w.p.ends[x], o.owns[x])
    {
      assert x != e ==> OwnOk(w.p.ends[x], w.o.owns[x]);
    }
    OwnStep(w, o);
  }

  predicate MovableReadable(E: End, O: Own) {
    MovableIdle(E, O) && E.readable
  }

  // ---------------------------------------------------------------- tables

  ghost function Attach(w: World, e: Ref, t: Ref): (r: (World, Status))
    requires Inv(w) && e in w.p.ends && t in w.o.tables
  {
    if !MovableReadable(w.p.ends[e], w.o.owns[e]) || w.o.owns[e].table != NULL then (w, Trapped)
    else if !HasRoom(w.o.tables[t]) then (w, OutOfMemory)
    else (w.(o := Publish(w.o, e, t)), Ok)
  }

  ghost function Detach(w: World, e: Ref): (r: (World, Status))
    requires Inv(w) && e in w.p.ends
  {
    if !MovableReadable(w.p.ends[e], w.o.owns[e]) || w.o.owns[e].table == NULL then (w, Trapped)
    else (w.(o := Unregister(w.o, e)), Ok)
  }

  lemma {:induction false} PublishOwns(o: Owners, e: Ref, t: Ref)
    requires e in o.owns && t in o.tables
    ensures Publish(o, e, t).owns == o.owns[e := o.owns[e].(table := t, handle := o.tables[t].next)]
  {
  }

  lemma {:induction false} AttachKeeps(w: World, e: Ref, t: Ref)
    requires Inv(w) && e in w.p.ends && t in w.o.tables
    ensures Inv(Attach(w, e, t).0)
  {
    hide PairInv, Conserved, HomeInv, OwnersInv, Publish;
    if Attach(w, e, t).1 == Ok {
      PublishKeeps(w.o, e, t);
      PublishOwns(w.o, e, t);
      OwnMove(w, Publish(w.o, e, t), e);
    }
  }

  lemma {:induction false} UnregisterOwns(o: Owners, e: Ref)
    requires e in o.owns && o.owns[e].table in o.tables && o.owns[e].table != NULL
    ensures Unregister(o, e).owns == o.owns[e := o.owns[e].(table := NULL, handle := 0, setHandle := 0)]
  {
  }

  lemma {:induction false} TableKnown(o: Owners, e: Ref)
    requires OwnersInv(o) && e in o.owns && o.owns[e].table != NULL
    ensures o.owns[e].table in o.tables && Holds(o, o.owns[e].table, o.owns[e].handle, e) && ShapeOk(o.owns[e])
  {
    assert PlaceOk(o, e);
  }

  lemma {:induction false} DetachKeeps(w: World, e: Ref)
    requires Inv(w) && e in w.p.ends
    ensures Inv(Detach(w, e).0)
  {
    hide PairInv, Conserved, HomeInv, OwnersInv, Unregister;
    if Detach(w, e).1 == Ok {
      TableKnown(w.o, e);
      UnregisterKeeps(w.o, e);
      UnregisterOwns(w.o, e);
      OwnMove(w, Unregister(w.o, e), e);
    }
  }

  // ---------------------------------------------------------------- waiters and waitable sets

  /** Changes of `e` that do not move it. */
  function Waiting(o: Owners, e: Ref, O: Own): Owners {
    o.(owns := o.owns[e := O])
  }

  lemma {:induction false} WaitingMoves(o: Owners, e: Ref, O: Own)
    requires AddressesOk(o) && e in o.owns && PlaceOk(o, e) && ShapeOk(O)
    requires O == o.owns[e].(setHandle := O.setHandle, syncWaiter := O.syncWaiter)
    ensures var q := Waiting(o, e, O); OnlyMoved(o, q, e) && AddressesOk(q) && PlaceOk(q, e)
  {
    var q := Waiting(o, e, O);
    forall t: Ref, h: nat | Holds(q, t, h, e)
      ensures Holds(o, t, h, e)
    {
    }
    forall v: Ref | Refers(q, v, e)
      ensures Refers(o, v, e)
    {
    }
    hide NoDuplicates;
  }

  lemma {:induction false} WaitingKeeps(w: World, e: Ref, O: Own)
    requires Inv(w) && e in w.p.ends && ShapeOk(O)
    requires O == w.o.owns[e].(setHandle := O.setHandle, syncWaiter := O.syncWaiter)
    ensures Inv(w.(o := Waiting(w.o, e, O)))
  {
    assert OwnOk(w.p.ends[e], O) && PlaceOk(w.o, e) && AddressesOk(w.o);
    hide PairInv, Conserved, HomeInv, OwnersInv, PlaceOk, AddressesOk, OwnOk, OnlyMoved;
    WaitingMoves(w.o, e, O);
    MoveKeeps(w.o, Waiting(w.o, e, O), e);
    OwnMove(w, Waiting(w.o, e, O), e);
  }

  ghost function WaitBegin(w: World, e: Ref): (r: (World, Status))
    requires Inv(w) && e in w.p.ends
  {
    var O := w.o.owns[e];
    if O.table == NULL || O.setHandle != 0 || O.syncWaiter then (w, Trapped)
    else (w.(o := Waiting(w.o, e, O.(syncWaiter := true))), Ok)
  }

  ghost function WaitCancel(w: World, e: Ref): (r: (World, Status))
    requires Inv(w) && e in w.p.ends
  {
    var O := w.o.owns[e];
    if O.table == NULL || !O.syncWaiter then (w, Trapped)
    else (w.(o := Waiting(w.o, e, O.(syncWaiter := false))), Ok)
  }

  /** The waiter leaves with whatever was delivered, and stays if nothing was. */
  ghost function WaitEnd(w: World, e: Ref, cleanup: Status): (r: (World, Status, nat))
    requires Inv(w) && e in w.p.ends
  {
    var O := w.o.owns[e];
    if O.table == NULL || !O.syncWaiter then (w, Trapped, 0)
    else
      var (v, status, payload) := Deliver(w, e, cleanup);
      if status == Yielded then (v, status, payload)
      else (v.(o := Waiting(v.o, e, O.(syncWaiter := false))), status, payload)
  }

  ghost function JoinSet(w: World, e: Ref, set_: nat): (r: (World, Status))
    requires Inv(w) && e in w.p.ends
  {
    var O := w.o.owns[e];
    if O.table == NULL || O.syncWaiter then (w, Trapped)
    else (w.(o := Waiting(w.o, e, O.(setHandle := set_))), Ok)
  }

  lemma {:induction false} OwnShape(w: World, e: Ref)
    requires Inv(w) && e in w.p.ends
    ensures e in w.o.owns && ShapeOk(w.o.owns[e]) && OwnOk(w.p.ends[e], w.o.owns[e])
  {
    assert PlaceOk(w.o, e);
    hide PairInv, Conserved, HomeInv, OwnersInv;
  }

  lemma {:induction false} WaitsKeep(w: World, e: Ref, set_: nat)
    requires Inv(w) && e in w.p.ends
    ensures Inv(WaitBegin(w, e).0) && Inv(WaitCancel(w, e).0) && Inv(JoinSet(w, e, set_).0)
  {
    OwnShape(w, e);
    hide Inv, Waiting;
    var O := w.o.owns[e];
    if O.table != NULL {
      if O.setHandle == 0 {
        WaitingKeeps(w, e, O.(syncWaiter := true));
      }
      if O.syncWaiter {
        WaitingKeeps(w, e, O.(syncWaiter := false));
      } else {
        WaitingKeeps(w, e, O.(setHandle := set_));
      }
    }
  }

  lemma {:induction false} DeliverOwns(w: World, e: Ref, cleanup: Status)
    requires Closed(w.p) && e in w.p.ends
    ensures Deliver(w, e, cleanup).0.o == w.o && Deliver(w, e, cleanup).0.p.ends.Keys == w.p.ends.Keys
  {
    hide Delivered;
  }

  lemma {:induction false} WaiterLive(w: World, e: Ref)
    requires Inv(w) && e in w.p.ends && w.o.owns[e].table != NULL
    ensures Closed(w.p) && Live(w.p.ends[e], w.o.owns[e]) && ShapeOk(w.o.owns[e].(syncWaiter := false))
  {
    OwnShape(w, e);
    hide Conserved, HomeInv, OwnersInv;
    PairClosed(w.p);
  }

  lemma {:induction false} WaitEndKeeps(w: World, e: Ref, cleanup: Status)
    requires Inv(w) && e in w.p.ends
    ensures Inv(WaitEnd(w, e, cleanup).0)
  {
    hide Inv, Closed, Live, ShapeOk, OwnOk, Deliver, Waiting;
    OwnShape(w, e);
    var O := w.o.owns[e];
    if O.table != NULL && O.syncWaiter {
      WaiterLive(w, e);
      DeliverOwns(w, e, cleanup);
      DeliverKeeps(w, e, cleanup);
      WaitingKeeps(Deliver(w, e, cleanup).0, e, O.(syncWaiter := false));
    }
  }

  // ---------------------------------------------------------------- values

  /** The value refers to the same end as before, or to none as before. */
  lemma {:induction false} SameRefersKeeps(o: Owners, q: Owners)
    requires OwnersInv(o) && q == o.(owners := q.owners) && NULL !in q.owners
    requires forall v: Ref, x: Ref :: x != NULL ==> (Refers(q, v, x) <==> Refers(o, v, x))
    ensures OwnersInv(q)
  {
    assert AddressesOk(o);
    assert AddressesOk(q) by {
      hide NoDuplicates;
      forall v | v in q.owners && q.owners[v].endpoint != NULL
        ensures q.owners[v].endpoint in q.owns
      {
        assert Refers(q, v, q.owners[v].endpoint);
      }
    }
    forall e | e in q.owns
      ensures PlaceOk(q, e)
    {
      assert PlaceOk(o, e) && e != NULL;
      SameRefersPlace(o, q, e);
    }
  }

  lemma {:induction false} SameRefersPlace(o: Owners, q: Owners, e: Ref)
    requires q == o.(owners := q.owners) && e in o.owns && PlaceOk(o, e)
    requires forall v: Ref :: Refers(q, v, e) <==> Refers(o, v, e)
    ensures PlaceOk(q, e)
  {
    assert forall t: Ref, h: nat :: Holds(q, t, h, e) <==> Holds(o, t, h, e);
  }

  ghost function IntoValue(w: World, e: Ref, v: Ref): (r: (World, Status))
    requires Inv(w) && e in w.p.ends && v !in w.o.owners
  {
    if !MovableReadable(w.p.ends[e], w.o.owns[e]) || w.o.owns[e].table != NULL then (w, Trapped)
    else if v == NULL then (w, OutOfMemory)
    else (w.(o := Bind(w.o, e, v)), Ok)
  }

  ghost function SetFlags(o: Owners, v: Ref, adopted: bool, admitted: bool): Owners
    requires v in o.owners
  {
    o.(owners := o.owners[v := o.owners[v].(adopted := adopted, admitted := admitted)])
  }

  /** A host transaction takes charge of the value's creation instance. */
  ghost function Adopt(w: World, v: Ref): (r: (World, Status))
    requires Inv(w) && v in w.o.owners
  {
    var e := w.o.owners[v].endpoint;
    if e == NULL then (w, InvalidArgument)
    else
      ValueOwns(w, v);
      if w.o.owns[e].lowerScope != NULL || w.o.owners[v].adopted then (w, Trapped)
      else (w.(o := SetFlags(w.o, v, true, false)), Ok)
  }

  /** That transaction commits. */
  ghost function Settle(w: World, v: Ref): (r: (World, Status))
    requires Inv(w) && v in w.o.owners
  {
    if !w.o.owners[v].adopted then (w, InvalidArgument) else (w.(o := SetFlags(w.o, v, true, true)), Ok)
  }

  ghost function TakeValue(w: World, v: Ref): (r: (World, Status))
    requires Inv(w) && v in w.o.owners
  {
    var e := w.o.owners[v].endpoint;
    if e == NULL then (w, InvalidArgument)
    else
      ValueOwns(w, v);
      if w.o.owns[e].lowerScope != NULL || (w.o.owners[v].adopted && !w.o.owners[v].admitted) then (w, Trapped)
      else (w.(o := Unbind(w.o, e, v)), Ok)
  }

  /** Destroying a value closes its end, unless the host transaction that brought
      it in was never committed: then the end stays with the host. */
  ghost function ReleaseValue(w: World, v: Ref): (r: (World, Status))
    requires Inv(w) && v in w.o.owners
  {
    var e := w.o.owners[v].endpoint;
    if e == NULL then (w.(o := Freed(w.o, v)), Ok)
    else
      ValueOwns(w, v);
      if w.o.owns[e].lowerScope != NULL then (w, Trapped)
      else
        var u := w.(o := Unbind(w.o, e, v));
        UnbindWorld(w, e, v);
        if w.o.owners[v].adopted && !w.o.owners[v].admitted then (u, Ok) else Close(u, e)
  }

  /** The value that refers to an end is its owner. */
  lemma {:induction false} ValueOwns(w: World, v: Ref)
    requires Inv(w) && v in w.o.owners && w.o.owners[v].endpoint != NULL
    ensures v != NULL && w.o.owners[v].endpoint in w.o.owns
    ensures var e := w.o.owners[v].endpoint;
              w.o.owns[e].valueOwner == v && w.o.owns[e].table == NULL && Frozen(w.p.ends[e])
  {
    var e := w.o.owners[v].endpoint;
    assert e in w.o.owns;
    assert Refers(w.o, v, e) && PlaceOk(w.o, e);
    assert OwnOk(w.p.ends[e], w.o.owns[e]);
    hide PairInv, Conserved, HomeInv, OwnersInv, EachOwnOk;
  }

  lemma {:induction false} BindOwns(o: Owners, e: Ref, v: Ref)
    requires e in o.owns
    ensures Bind(o, e, v).owns == o.owns[e := o.owns[e].(valueOwner := v)]
    ensures Unbind(o, e, v).owns == o.owns[e := o.owns[e].(valueOwner := NULL)]
  {
  }

  lemma {:induction false} IntoValueKeeps(w: World, e: Ref, v: Ref)
    requires Inv(w) && e in w.p.ends && v !in w.o.owners
    ensures Inv(IntoValue(w, e, v).0)
  {
    hide PairInv, Conserved, HomeInv, OwnersInv, EachOwnOk, Bind;
    if IntoValue(w, e, v).1 == Ok {
      BindKeeps(w.o, e, v);
      BindOwns(w.o, e, v);
      OwnMove(w, Bind(w.o, e, v), e);
    }
  }

  lemma {:induction false} UnbindWorld(w: World, e: Ref, v: Ref)
    requires Inv(w) && v in w.o.owners && w.o.owners[v].endpoint == e && e != NULL && e in w.o.owns
    requires w.o.owns[e].lowerScope == NULL
    ensures Inv(w.(o := Unbind(w.o, e, v)))
    ensures Live(w.p.ends[e], Unbind(w.o, e, v).owns[e]) && Unbind(w.o, e, v).owns[e].table == NULL
  {
    hide PairInv, Conserved, HomeInv, OwnersInv, EachOwnOk, Unbind;
    ValueOwns(w, v);
    UnbindKeeps(w.o, e, v);
    BindOwns(w.o, e, v);
    OwnMove(w, Unbind(w.o, e, v), e);
  }

  lemma {:induction false} FlagsKeep(w: World, v: Ref, adopted: bool, admitted: bool)
    requires Inv(w) && v in w.o.owners
    ensures Inv(w.(o := SetFlags(w.o, v, adopted, admitted)))
  {
    OwnFacts(w);
    var q := SetFlags(w.o, v, adopted, admitted);
    assert NULL !in q.owners;
    assert forall u: Ref, x: Ref :: Refers(q, u, x) <==> Refers(w.o, u, x);
    hide *;
    SameRefersKeeps(w.o, q);
    OwnsSameKeeps(w, q);
  }

  lemma {:induction false} OwnsSameKeeps(w: World, o: Owners)
    requires Inv(w) && OwnersInv(o) && o.owns == w.o.owns
    ensures Inv(w.(o := o))
  {
    hide PairInv, Conserved, HomeInv, OwnersInv, OwnOk;
    OwnStep(w, o);
  }

  function Freed(o: Owners, v: Ref): Owners {
    o.(owners := o.owners - {v})
  }

  lemma {:induction false} FreedRefers(o: Owners, v: Ref)
    requires v in o.owners && o.owners[v].endpoint == NULL && NULL !in o.owners
    ensures NULL !in Freed(o, v).owners
    ensures forall u: Ref, x: Ref :: x != NULL ==> (Refers(Freed(o, v), u, x) <==> Refers(o, u, x))
  {
  }

  lemma {:induction false} InertKeeps(w: World, v: Ref)
    requires Inv(w) && v in w.o.owners && w.o.owners[v].endpoint == NULL
    ensures Inv(w.(o := Freed(w.o, v)))
  {
    OwnFacts(w);
    assert NULL !in w.o.owners;
    hide Inv, OwnInv, OwnersInv, Refers;
    FreedRefers(w.o, v);
    SameRefersKeeps(w.o, Freed(w.o, v));
    OwnsSameKeeps(w, Freed(w.o, v));
  }

  lemma {:induction false} ValuesKeep(w: World, v: Ref)
    requires Inv(w) && v in w.o.owners
    ensures Inv(Adopt(w, v).0) && Inv(Settle(w, v).0) && Inv(TakeValue(w, v).0)
  {
    hide Inv, SetFlags, Unbind;
    FlagsKeep(w, v, true, false);
    FlagsKeep(w, v, true, true);
    if TakeValue(w, v).1 == Ok {
      ValueOwns(w, v);
      UnbindWorld(w, w.o.owners[v].endpoint, v);
    }
  }

  /** Destroying a value never fails but for a reserved one. */
  lemma {:induction false} ReleaseValueKeeps(w: World, v: Ref)
    requires Inv(w) && v in w.o.owners
    ensures Inv(ReleaseValue(w, v).0)
    ensures ReleaseValue(w, v).1 == Ok <==>
            w.o.owners[v].endpoint == NULL
              || (w.o.owners[v].endpoint in w.o.owns && w.o.owns[w.o.owners[v].endpoint].lowerScope == NULL)
    ensures ReleaseValue(w, v).1 != Ok ==> ReleaseValue(w, v).0 == w
  {
    var e := w.o.owners[v].endpoint;
    if e == NULL {
      InertKeeps(w, v);
    } else {
      ValueOwns(w, v);
      if w.o.owns[e].lowerScope == NULL {
        UnbindWorld(w, e, v);
        var u := w.(o := Unbind(w.o, e, v));
        hide PairInv, Conserved, HomeInv, OwnersInv, EachOwnOk, Frozen, Unbind, Close;
        OwnShape(u, e);
        CloseKeepsAll(u, e);
        FreshClose(w, u, e);
      }
    }
  }

  lemma {:induction false} FreshClose(w: World, u: World, e: Ref)
    requires Inv(u) && e in u.p.ends && Live(u.p.ends[e], u.o.owns[e]) && u.o.owns[e].table == NULL
    requires ShapeOk(u.o.owns[e])
    requires u.p == w.p && e in w.p.ends && Frozen(w.p.ends[e])
    ensures Close(u, e).1 == Ok
  {
    CloseExactly(u, e);
    hide Inv;
  }

  // ---------------------------------------------------------------- codec

  /** Takes the end at handle `h` out of the codec's table, into the new value `v`. */
  ghost function Lift(w: World, c: Ref, h: nat, ty: EndType, v: Ref): (r: (World, Status))
    requires Inv(w) && c in w.o.codecs && v !in w.o.owners
  {
    CodecTable(w, c);
    var t := w.o.codecs[c].table;
    if h !in w.o.tables[t].entries then (w, Trapped)
    else
      var e := w.o.tables[t].entries[h];
      if w.o.owns[e].table != t || w.o.owns[e].handle != h || w.p.ends[e].ty.future != ty.future then (w, Trapped)
      else if !MovableReadable(w.p.ends[e], w.o.owns[e]) then (w, Trapped)
      else if w.p.ends[e].ty != ty then (w, TypeMismatch)
      else if v == NULL then (w, OutOfMemory)
      else
        DetachKeeps(w, e);
        LiftFits(w, e);
        IntoValue(Detach(w, e).0, e, v)
  }

  lemma {:induction false} CodecTable(w: World, c: Ref)
    requires Inv(w) && c in w.o.codecs
    ensures w.o.codecs[c].table in w.o.tables
    ensures forall h :: h in w.o.tables[w.o.codecs[c].table].entries ==>
              w.o.tables[w.o.codecs[c].table].entries[h] in w.o.owns
                && w.o.tables[w.o.codecs[c].table].entries[h] in w.p.ends
  {
  }

  /** A detached end can be put into a value. */
  lemma {:induction false} LiftFits(w: World, e: Ref)
    requires Inv(w) && e in w.p.ends && MovableReadable(w.p.ends[e], w.o.owns[e]) && w.o.owns[e].table != NULL
    ensures var u := Detach(w, e).0;
            u.p == w.p && u.o.owners == w.o.owners && e in u.o.owns && u.o.owns[e].table == NULL
              && MovableReadable(u.p.ends[e], u.o.owns[e])
  {
    hide PairInv, Conserved, HomeInv, OwnersInv, EachOwnOk;
    TableKnown(w.o, e);
  }

  /** A lift either fails and changes nothing, or moves the end from its slot into the value. */
  lemma {:induction false} LiftKeeps(w: World, c: Ref, h: nat, ty: EndType, v: Ref)
    requires Inv(w) && c in w.o.codecs && v !in w.o.owners
    ensures Inv(Lift(w, c, h, ty, v).0)
    ensures Lift(w, c, h, ty, v).1 != Ok ==> Lift(w, c, h, ty, v).0 == w
  {
    hide PairInv, Conserved, HomeInv, OwnersInv, EachOwnOk, Detach, IntoValue;
    CodecTable(w, c);
    var t := w.o.codecs[c].table;
    if h in w.o.tables[t].entries {
      var e := w.o.tables[t].entries[h];
      if w.o.owns[e].table == t && MovableReadable(w.p.ends[e], w.o.owns[e]) && v != NULL {
        TableNotNull(w, c);
        DetachKeeps(w, e);
        LiftFits(w, e);
        IntoValueKeeps(Detach(w, e).0, e, v);
        IntoValueOk(Detach(w, e).0, e, v);
      }
    }
  }

  /** The tables of codecs are not NULL. */
  lemma {:induction false} TableNotNull(w: World, c: Ref)
    requires Inv(w) && c in w.o.codecs
    ensures w.o.codecs[c].table != NULL
  {
  }

  lemma {:induction false} IntoValueOk(w: World, e: Ref, v: Ref)
    requires Inv(w) && e in w.p.ends && v !in w.o.owners && v != NULL
    requires MovableReadable(w.p.ends[e], w.o.owns[e]) && w.o.owns[e].table == NULL
    ensures IntoValue(w, e, v).1 == Ok
  {
    hide Inv;
  }

  /** Reserves a handle for the end of value `v`. */
  ghost function Lower(w: World, c: Ref, v: Ref, ty: EndType): (r: (World, Status))
    requires Inv(w) && c in w.o.codecs && v in w.o.owners
  {
    CodecTable(w, c);
    var e := w.o.owners[v].endpoint;
    if e == NULL then (w, TypeMismatch)
    else
      ValueOwns(w, v);
      if w.p.ends[e].ty != ty then (w, TypeMismatch)
      else if w.o.owns[e].lowerScope != NULL then (w, Trapped)
      else if !HasRoom(w.o.tables[w.o.codecs[c].table]) then (w, OutOfMemory)
      else (w.(o := Reserve(w.o, c, e)), Ok)
  }

  lemma {:induction false} ReserveOwns(o: Owners, c: Ref, e: Ref)
    requires e in o.owns && c in o.codecs && o.codecs[c].table in o.tables
    ensures var q := Reserve(o, c, e);
            q.owns == o.owns[e := o.owns[e].(lowerScope := c, lowerHandle := o.tables[o.codecs[c].table].next)]
  {
  }

  lemma {:induction false} LowerKeeps(w: World, c: Ref, v: Ref, ty: EndType)
    requires Inv(w) && c in w.o.codecs && v in w.o.owners
    ensures Inv(Lower(w, c, v, ty).0)
  {
    hide PairInv, Conserved, HomeInv, OwnersInv, EachOwnOk, Reserve, Frozen;
    CodecTable(w, c);
    var e := w.o.owners[v].endpoint;
    if e != NULL {
      ValueOwns(w, v);
      if w.o.owns[e].lowerScope == NULL {
        ReserveKeeps(w.o, c, e);
        ReserveOwns(w.o, c, e);
        OwnShape(w, e);
        OwnMove(w, Reserve(w.o, c, e), e);
      }
    }
  }

  /** Publishes or gives back everything the scope reserved, or does nothing. */
  ghost function Finish(w: World, c: Ref, commit: bool): (r: (World, Status))
    requires Inv(w) && c in w.o.codecs
  {
    if !Preflight(w.o, c, commit) then (w, Trapped)
    else (w.(o := if commit then CommitAll(w.o, c) else RollbackAll(w.o, c)), Ok)
  }

  lemma {:induction false} PublishedOk(E: End, O: Own, t: Ref)
    requires OwnOk(E, O) && O.valueOwner != NULL
    ensures OwnOk(E, Published(O, t))
  {
  }

  lemma {:induction false} CommitKeeps(w: World, c: Ref)
    requires Inv(w) && c in w.o.codecs
    ensures Inv(w.(o := CommitAll(w.o, c)))
  {
    hide PairInv, Conserved, HomeInv, OwnersInv, CommitAll, OwnOk, Staged;
    CommitPublishes(w.o, c);
    PreflightExactly(w.o, c);
    var q := CommitAll(w.o, c);
    forall e | e in q.owns
      ensures OwnOk(w.p.ends[e], q.owns[e])
    {
      assert OwnOk(w.p.ends[e], w.o.owns[e]);
      if e in w.o.codecs[c].chain {
        assert Staged(w.o, c, e, false);
        StagedHeld(w.o, c, e);
        PublishedOk(w.p.ends[e], w.o.owns[e], w.o.codecs[c].table);
      }
    }
    OwnStep(w, q);
  }

  lemma {:induction false} StagedHeld(o: Owners, c: Ref, e: Ref)
    requires c in o.codecs && Staged(o, c, e, false)
    ensures o.owns[e].valueOwner != NULL
  {
  }

  /** Rolling back gives ends back to their values. */
  lemma {:induction false} RollbackOwns(o: Owners, c: Ref)
    requires OwnersInv(o) && c in o.codecs
    ensures var q := RollbackAll(o, c);
            && q.owns.Keys == o.owns.Keys
            && forall e :: e in o.owns ==>
                 q.owns[e].table == o.owns[e].table && q.owns[e].valueOwner == o.owns[e].valueOwner
    decreases |o.codecs[c].chain|
  {
    hide OwnersInv, RollbackAll;
    if o.codecs[c].chain != [] {
      RollbackStep(o, c);
      RollbackOwns(RollbackOne(o, c), c);
    } else {
      RollbackNil(o, c);
    }
  }

  lemma {:induction false} RollbackNil(o: Owners, c: Ref)
    requires OwnersInv(o) && c in o.codecs && o.codecs[c].chain == []
    ensures RollbackAll(o, c) == o
  {
    hide OwnersInv;
  }

  lemma {:induction false} RollbackKeeps(w: World, c: Ref)
    requires Inv(w) && c in w.o.codecs
    ensures Inv(w.(o := RollbackAll(w.o, c)))
  {
    hide PairInv, Conserved, HomeInv, OwnersInv, RollbackAll;
    RollbackOwns(w.o, c);
    OwnStep(w, RollbackAll(w.o, c));
  }

  /** A scope is finished as a whole or not at all, and a rollback always succeeds. */
  lemma {:induction false} FinishKeeps(w: World, c: Ref, commit: bool)
    requires Inv(w) && c in w.o.codecs
    ensures Inv(Finish(w, c, commit).0)
    ensures Finish(w, c, commit).1 == Ok || Finish(w, c, commit) == (w, Trapped)
    ensures !commit ==> Finish(w, c, commit).1 == Ok
  {
    hide PairInv, Conserved, HomeInv, OwnersInv, CommitAll, RollbackAll, Preflight;
    PreflightExactly(w.o, c);
    if commit {
      CommitKeeps(w, c);
    } else {
      RollbackKeeps(w, c);
    }
  }
}
