/**
  Moving readable ends through canonical values: the operations on owners, and
  the all-or-nothing lowering scope (src/component_endpoint.c).
 */
module EndpointTransactions {
  import opened Common
  import opened AsyncState
  import opened EndpointModel
  import opened EndpointOwnership

  // ---------------------------------------------------------------- commit and rollback of a scope

  /** What `finish_codec` checks of one reserved end. */
  ghost predicate Staged(o: Owners, c: Ref, e: Ref, commit: bool)
    requires c in o.codecs
  {
    && e in o.owns && o.owns[e].lowerScope == c && o.owns[e].valueOwner != NULL && Refers(o, o.owns[e].valueOwner, e)
    && o.owns[e].table == NULL
    && (commit && o.owners[o.owns[e].valueOwner].adopted ==> o.owners[o.owns[e].valueOwner].admitted)
    && Holds(o, o.codecs[c].table, o.owns[e].lowerHandle, e)
  }

  ghost predicate Preflight(o: Owners, c: Ref, commit: bool)
    requires c in o.codecs
  {
    forall e :: e in o.codecs[c].chain ==> Staged(o, c, e, commit)
  }

  /** The preflight of a rollback never fails, and the preflight of a commit fails
      exactly when some value belongs to a host transaction that has not committed. */
  lemma {:induction false} PreflightExactly(o: Owners, c: Ref)
    requires OwnersInv(o) && c in o.codecs
    ensures Preflight(o, c, false)
    ensures forall e :: e in o.codecs[c].chain ==> e in o.owns && o.owns[e].valueOwner in o.owners
    ensures Preflight(o, c, true) <==>
            forall e :: e in o.codecs[c].chain ==> o.owners[o.owns[e].valueOwner].adopted ==>
              o.owners[o.owns[e].valueOwner].admitted
  {
    forall e | e in o.codecs[c].chain
      ensures Staged(o, c, e, false)
    {
      assert PlaceOk(o, e);
    }
  }

  lemma {:induction false} ScopePinned(o: Owners, c: Ref)
    requires OwnersInv(o) && c in o.codecs && o.codecs[c].chain != []
    ensures Pinned(o, c) && PlaceOk(o, o.codecs[c].chain[0])
  {
    assert o.codecs[c].chain[0] in o.codecs[c].chain;
  }

  ghost function CommitAll(o: Owners, c: Ref): (q: Owners)
    requires OwnersInv(o) && c in o.codecs
    ensures OwnersInv(q) && q.codecs.Keys == o.codecs.Keys
    decreases |o.codecs[c].chain|
  {
    if o.codecs[c].chain == [] then o
    else
      ScopePinned(o, c);
      CommitOneKeeps(o, c);
      CommitAll(CommitOne(o, c), c)
  }

  ghost function RollbackAll(o: Owners, c: Ref): (q: Owners)
    requires OwnersInv(o) && c in o.codecs
    ensures OwnersInv(q) && q.codecs.Keys == o.codecs.Keys
    decreases |o.codecs[c].chain|
  {
    if o.codecs[c].chain == [] then o
    else
      ScopePinned(o, c);
      RollbackOneKeeps(o, c);
      RollbackAll(RollbackOne(o, c), c)
  }

  /** `e` is published at its reserved handle. */
  function Published(O: Own, t: Ref): Own {
    O.(table := t, handle := O.lowerHandle, valueOwner := NULL, lowerScope := NULL, lowerHandle := 0)
  }

  ghost predicate OwnsCommitted(o: Owners, q: Owners, c: Ref)
    requires c in o.codecs
  {
    && q.owns.Keys == o.owns.Keys
    && (forall e :: e in o.owns ==>
         q.owns[e] == if e in o.codecs[c].chain then Published(o.owns[e], o.codecs[c].table) else o.owns[e])
  }

  ghost predicate ValuesCommitted(o: Owners, q: Owners, c: Ref)
    requires c in o.codecs
  {
    && q.owners.Keys == o.owners.Keys
    && (forall v :: v in o.owners ==>
          q.owners[v] == if o.owners[v].endpoint in o.codecs[c].chain then INERT else o.owners[v])
  }

  /** The effect of a commit: every end of the scope is published at the handle
      that was reserved for it, its old value refers to nothing any more, and
      nothing else changes. */
  ghost predicate Committed(o: Owners, q: Owners, c: Ref)
    requires c in o.codecs
  {
    OwnsCommitted(o, q, c) && ValuesCommitted(o, q, c) && q.tables == o.tables
      && q.codecs == o.codecs[c := o.codecs[c].(chain := [])]
  }

  /** The head of a chain and the rest, with the value that holds the head. */
  ghost predicate HeadFacts(o: Owners, c: Ref) {
    && Pinned(o, c)
    && var s := o.codecs[c].chain;
    && s[0] in s && s[0] !in s[1..] && (forall x :: x != s[0] ==> (x in s[1..] <==> x in s)) && NULL !in s
    && o.owns[s[0]].valueOwner in o.owners
    && (forall v :: v in o.owners ==> (o.owners[v].endpoint == s[0] <==> v == o.owns[s[0]].valueOwner))
  }

  lemma {:induction false} ScopeHead(o: Owners, c: Ref)
    requires OwnersInv(o) && c in o.codecs && o.codecs[c].chain != []
    ensures HeadFacts(o, c)
  {
    var e := o.codecs[c].chain[0];
    ScopePinned(o, c);
    TailFacts(o.codecs[c].chain);
    assert e in o.codecs[c].chain;
    assert NULL !in o.codecs[c].chain;
    forall v | v in o.owners
      ensures o.owners[v].endpoint == e <==> v == o.owns[e].valueOwner
    {
      assert o.owners[v].endpoint == e ==> Refers(o, v, e);
    }
    hide OwnersInv, NoDuplicates, ClaimsHeld, SlotsClaimed, ChainsOk;
  }

  lemma {:induction false} CommitOneOwns(o: Owners, q: Owners, c: Ref)
    requires HeadFacts(o, c) && OwnsCommitted(CommitOne(o, c), q, c)
    ensures OwnsCommitted(o, q, c)
  {
  }

  lemma {:induction false} CommitOneValues(o: Owners, q: Owners, c: Ref)
    requires HeadFacts(o, c) && ValuesCommitted(CommitOne(o, c), q, c)
    ensures ValuesCommitted(o, q, c)
  {
  }

  lemma {:induction false} CommitOneEffect(o: Owners, q: Owners, c: Ref)
    requires HeadFacts(o, c) && Committed(CommitOne(o, c), q, c)
    ensures Committed(o, q, c)
  {
    CommitOneOwns(o, q, c);
    CommitOneValues(o, q, c);
    hide HeadFacts, OwnsCommitted, ValuesCommitted;
  }

  lemma {:induction false} CommitPublishes(o: Owners, c: Ref)
    requires OwnersInv(o) && c in o.codecs
    ensures Committed(o, CommitAll(o, c), c)
    decreases |o.codecs[c].chain|
  {
    if o.codecs[c].chain != [] {
      ScopePinned(o, c);
      CommitOneKeeps(o, c);
      ScopeHead(o, c);
      hide OwnersInv, HeadFacts, Committed, PlaceOk;
      CommitPublishes(CommitOne(o, c), c);
      CommitOneEffect(o, CommitAll(o, c), c);
    } else {
      assert o.codecs[c := o.codecs[c].(chain := [])] == o.codecs;
    }
  }

  // ---------------------------------------------------------------- rollback

  /** `n` more handles of table `t` have been handed out; nothing else differs. */
  function Bumped(o: Owners, t: Ref, n: nat): Owners
    requires t in o.tables
  {
    o.(tables := o.tables[t := o.tables[t].(next := o.tables[t].next + n)])
  }

  /** The values that hold `es` can be lowered one after the other. */
  ghost predicate CanLower(o: Owners, c: Ref, es: seq<Ref>) {
    && OwnersInv(o) && c in o.codecs && NoDuplicates(es)
    && (forall e :: e in es ==>
         e in o.owns && o.owns[e].valueOwner != NULL && o.owns[e].table == NULL && o.owns[e].lowerScope == NULL)
  }

  lemma {:induction false} LowerFirst(o: Owners, c: Ref, es: seq<Ref>)
    requires CanLower(o, c, es) && es != []
    ensures es[0] in o.owns && o.codecs[c].table in o.tables && CanLower(Reserve(o, c, es[0]), c, es[1..])
  {
    assert es[0] in es;
    ReserveKeeps(o, c, es[0]);
    TailFacts(es);
    hide OwnersInv, NoDuplicates;
  }

  ghost function LowerAll(o: Owners, c: Ref, es: seq<Ref>): (q: Owners)
    requires CanLower(o, c, es)
    ensures OwnersInv(q) && c in q.codecs
    decreases |es|
  {
    if es == [] then o
    else
      LowerFirst(o, c, es);
      LowerAll(Reserve(o, c, es[0]), c, es[1..])
  }

  lemma {:induction false} BumpKeeps(o: Owners, t: Ref, n: nat)
    requires OwnersInv(o) && t in o.tables
    ensures OwnersInv(Bumped(o, t, n))
  {
    var q := Bumped(o, t, n);
    assert AddressesOk(q);
    forall e | e in q.owns
      ensures PlaceOk(q, e)
    {
      assert PlaceOk(o, e);
      BumpPlace(o, t, n, e);
    }
  }

  lemma {:induction false} BumpPlace(o: Owners, t: Ref, n: nat, e: Ref)
    requires t in o.tables && e in o.owns && PlaceOk(o, e)
    ensures PlaceOk(Bumped(o, t, n), e)
  {
    var q := Bumped(o, t, n);
    assert forall t': Ref, h: nat :: Holds(q, t', h, e) <==> Holds(o, t', h, e);
    assert forall v: Ref :: Refers(q, v, e) <==> Refers(o, v, e);
  }

  /** Giving back the latest reservation undoes it. */
  lemma {:induction false} RollbackUndoes(o: Owners, c: Ref, e: Ref, n: nat)
    requires OwnersInv(o) && e in o.owns && c in o.codecs && o.owns[e].lowerScope == NULL
    ensures var t := o.codecs[c].table;
            && t in o.tables && Pinned(Bumped(Reserve(o, c, e), t, n), c)
            && RollbackOne(Bumped(Reserve(o, c, e), t, n), c) == Bumped(o, t, n + 1)
  {
    NextIsFree(o, o.codecs[c].table);
    assert ShapeOk(o.owns[e]) by {
      assert PlaceOk(o, e);
    }
    hide OwnersInv;
    RollbackBack(o, c, e, n);
  }

  lemma {:induction false} RollbackBack(o: Owners, c: Ref, e: Ref, n: nat)
    requires e in o.owns && c in o.codecs && o.owns[e].lowerScope == NULL && ShapeOk(o.owns[e])
    requires o.codecs[c].table in o.tables && o.tables[o.codecs[c].table].next !in o.tables[o.codecs[c].table].entries
    ensures var t := o.codecs[c].table;
            Pinned(Bumped(Reserve(o, c, e), t, n), c)
              && RollbackOne(Bumped(Reserve(o, c, e), t, n), c) == Bumped(o, t, n + 1)
  {
    var t := o.codecs[c].table;
    var r := Bumped(Reserve(o, c, e), t, n);
    assert ([e] + o.codecs[c].chain)[1..] == o.codecs[c].chain;
    var q := RollbackOne(r, c);
    assert q.owns == o.owns;
    assert q.codecs == o.codecs;
    assert q.tables[t].entries == o.tables[t].entries;
    assert q.tables == Bumped(o, t, n + 1).tables;
  }

  lemma {:induction false} LowerStep(o: Owners, c: Ref, es: seq<Ref>)
    requires CanLower(o, c, es) && es != []
    ensures es[0] in es && es[0] in o.owns && o.codecs[c].table in o.tables
    ensures CanLower(Reserve(o, c, es[0]), c, es[1..])
    ensures LowerAll(o, c, es) == LowerAll(Reserve(o, c, es[0]), c, es[1..])
  {
    LowerFirst(o, c, es);
    hide CanLower, Reserve;
  }

  lemma {:induction false} RollbackStep(o: Owners, c: Ref)
    requires OwnersInv(o) && c in o.codecs && o.codecs[c].chain != []
    ensures Pinned(o, c) && OwnersInv(RollbackOne(o, c)) && RollbackAll(o, c) == RollbackAll(RollbackOne(o, c), c)
  {
    ScopePinned(o, c);
    RollbackOneKeeps(o, c);
    hide OwnersInv;
  }

  /** The reserved end of a bumped scope is the head of its chain. */
  lemma {:induction false} BumpedHead(o: Owners, c: Ref, e: Ref, n: nat)
    requires e in o.owns && c in o.codecs && o.codecs[c].table in o.tables
    ensures var r := Reserve(o, c, e); var t := o.codecs[c].table;
            r.codecs[c].table == t && t in r.tables && c in r.codecs && Bumped(r, t, n).codecs[c].chain != []
  {
  }

  lemma {:induction false} RollbackReserved(o: Owners, c: Ref, e: Ref, n: nat)
    requires OwnersInv(o) && e in o.owns && c in o.codecs && o.codecs[c].table in o.tables
    requires o.owns[e].lowerScope == NULL
    requires OwnersInv(Bumped(Reserve(o, c, e), o.codecs[c].table, n)) && OwnersInv(Bumped(o, o.codecs[c].table, n + 1))
    ensures RollbackAll(Bumped(Reserve(o, c, e), o.codecs[c].table, n), c) ==
              RollbackAll(Bumped(o, o.codecs[c].table, n + 1), c)
  {
    RollbackUndoes(o, c, e, n);
    BumpedHead(o, c, e, n);
    hide OwnersInv, Reserve, Bumped, RollbackAll, RollbackOne;
    RollbackStep(Bumped(Reserve(o, c, e), o.codecs[c].table, n), c);
  }

  lemma {:induction false} LowerNil(o: Owners, c: Ref, es: seq<Ref>)
    requires CanLower(o, c, es) && es == []
    ensures LowerAll(o, c, es) == o && (forall t :: t in o.tables ==> Bumped(o, t, 0) == o)
  {
    forall t | t in o.tables
      ensures Bumped(o, t, 0) == o
    {
      assert o.tables[t := o.tables[t].(next := o.tables[t].next + 0)] == o.tables;
    }
  }

  lemma {:induction false} LowerHead(o: Owners, c: Ref, es: seq<Ref>)
    requires CanLower(o, c, es)
    ensures OwnersInv(o) && c in o.codecs && o.codecs[c].table in o.tables
    ensures es != [] ==> es[0] in o.owns && o.owns[es[0]].lowerScope == NULL
  {
    assert es != [] ==> es[0] in es;
  }

  lemma {:induction false} RollbackLowered(o: Owners, c: Ref, es: seq<Ref>)
    requires CanLower(o, c, es)
    ensures o.codecs[c].table in o.tables && OwnersInv(Bumped(o, o.codecs[c].table, |es|))
    ensures RollbackAll(LowerAll(o, c, es), c) == RollbackAll(Bumped(o, o.codecs[c].table, |es|), c)
    decreases |es|
  {
    hide *;
    LowerHead(o, c, es);
    var t := o.codecs[c].table;
    BumpKeeps(o, t, |es|);
    if es == [] {
      LowerNil(o, c, es);
    } else {
      LowerStep(o, c, es);
      BumpedHead(o, c, es[0], |es| - 1);
      RollbackLowered(Reserve(o, c, es[0]), c, es[1..]);
      RollbackReserved(o, c, es[0], |es| - 1);
    }
  }

  /** Rolling a scope back after any series of lowers restores every owner, every
      value and every table entry; the handed-out handles are not reused. */
  lemma {:induction false} RollbackRestores(o: Owners, c: Ref, es: seq<Ref>)
    requires CanLower(o, c, es) && o.codecs[c].chain == []
    ensures o.codecs[c].table in o.tables
    ensures RollbackAll(LowerAll(o, c, es), c) == Bumped(o, o.codecs[c].table, |es|)
  {
    RollbackLowered(o, c, es);
  }

  lemma {:induction false} ReserveChain(o: Owners, c: Ref, e: Ref)
    requires e in o.owns && c in o.codecs && o.codecs[c].table in o.tables
    ensures var r := Reserve(o, c, e);
              c in r.codecs && r.codecs[c].chain == [e] + o.codecs[c].chain && r.owners == o.owners
  {
  }

  /** After lowering, the scope holds the ends in reverse order, each at its own
      fresh handle, and every value still owns its end. */
  lemma {:induction false} LoweredChain(o: Owners, c: Ref, es: seq<Ref>)
    requires CanLower(o, c, es)
    ensures LowerAll(o, c, es).codecs[c].chain == Reversed(es) + o.codecs[c].chain
    ensures LowerAll(o, c, es).owners == o.owners
    decreases |es|
  {
    hide CanLower, OwnersInv, LowerAll, Reserve;
    LowerHead(o, c, es);
    if es == [] {
      LowerNil(o, c, es);
    } else {
      LowerStep(o, c, es);
      ReserveChain(o, c, es[0]);
      LoweredChain(Reserve(o, c, es[0]), c, es[1..]);
      assert Reversed(es[1..]) + ([es[0]] + o.codecs[c].chain) == (Reversed(es[1..]) + [es[0]]) + o.codecs[c].chain;
    }
  }

  function Reversed(s: seq<Ref>): seq<Ref> {
    if s == [] then [] else Reversed(s[1..]) + [s[0]]
  }
}
