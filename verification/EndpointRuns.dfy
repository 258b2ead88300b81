/**
  Whole runs of the endpoint machine: opening pairs, the environment, and what
  holds in every reachable state.
 */
module EndpointRuns {
  import opened Common
  import opened AsyncState
  import opened EndpointModel
  import opened EndpointInvariant
  import opened EndpointFlow
  import opened EndpointOwnership
  import opened EndpointTransactions
  import opened EndpointHomes
  import opened EndpointSteps
  import opened EndpointMoves

  // ---------------------------------------------------------------- open

  const UNOWNED := Own(NULL, 0, 0, false, NULL, NULL, 0)

  function Opened(readable: bool, ty: EndType, peer: Ref): End {
    BLANK.(readable := readable, ty := ty, state := ZERO.(future := ty.future), peer := peer, initialized := true)
  }

  ghost function OpenPairs(p: Pairs, r: Ref, x: Ref, ty: EndType): Pairs {
    p.(ends := p.ends[r := Opened(true, ty, x)][x := Opened(false, ty, r)])
  }

  function OpenHomes(h: Homes, r: Ref, x: Ref, tracked: bool): Homes {
    h.(homes := h.homes[r := Home(r, x, tracked)][x := Home(r, r, tracked)])
  }

  /** Registers `e` in table `t`, if there is one. */
  ghost function Register(o: Owners, e: Ref, t: Ref): Owners
    requires e in o.owns && (t == NULL || t in o.tables)
  {
    if t == NULL then o else Publish(o, e, t)
  }

  ghost predicate Room(o: Owners, t: Ref)
    requires t == NULL || t in o.tables
  {
    t == NULL || HasRoom(o.tables[t])
  }

  ghost predicate CanOpen(w: World, r: Ref, x: Ref, tr: Ref, tx: Ref) {
    && Inv(w) && r in w.p.ends && x in w.p.ends && (tr == NULL || tr in w.o.tables) && (tx == NULL || tx in w.o.tables)
    && r in w.o.owns && x in w.o.owns
  }

  /** Opens a pair on two unused ends; if the second registration fails, the
      first is undone. */
  ghost function Open(w: World, r: Ref, x: Ref, ty: EndType, tr: Ref, tx: Ref, tracked: bool): (out: (World, Status))
    requires CanOpen(w, r, x, tr, tx)
  {
    if r == x || w.p.ends[r].initialized || w.p.ends[x].initialized || w.o.owns[r].table != NULL
      || w.o.owns[x].table != NULL then (w, InvalidArgument)
    else if !Room(w.o, tr) then (w, OutOfMemory)
    else
      var o := Register(w.o, r, tr);
      if !Room(o, tx) then (w.(o := Unregister(o, r)), OutOfMemory)
      else (World(OpenPairs(w.p, r, x, ty), Register(o, x, tx), OpenHomes(w.h, r, x, tracked)), Ok)
  }

  lemma {:induction false} OpenPut(p: Pairs, r: Ref, x: Ref, ty: EndType)
    requires Closed(p) && r in p.ends && x in p.ends && r != x && p.ends[r] == BLANK && p.ends[x] == BLANK
    ensures PutTwo(p, OpenPairs(p, r, x, ty), r, Opened(true, ty, x), x, Opened(false, ty, r))
  {
    assert r != NULL && x != NULL;
    assert EndOk(Opened(true, ty, x)) && EndOk(Opened(false, ty, r));
  }

  lemma {:induction false} FlowNone(log: seq<Transfer>, e: Ref, reading: bool)
    requires forall i :: 0 <= i < |log| ==> log[i].writer != e && log[i].reader != e
    ensures Flow(log, e, reading) == []
  {
    if log != [] {
      FlowNone(log[..|log| - 1], e, reading);
    }
  }

  /** The two ends of `p` that a pair is opened on are unused. */
  ghost predicate Unused(p: Pairs, r: Ref, x: Ref) {
    r in p.ends && x in p.ends && r != x && p.ends[r] == BLANK && p.ends[x] == BLANK
  }

  lemma {:induction false} OpenLog(p: Pairs, r: Ref, x: Ref, ty: EndType)
    requires LogOk(p) && Unused(p, r, x)
    ensures LogOk(OpenPairs(p, r, x, ty))
    ensures forall i :: 0 <= i < |p.log| ==> p.log[i].writer !in {r, x} && p.log[i].reader !in {r, x}
  {
  }

  /** The flow through unused ends is empty, whatever they become. */
  lemma {:induction false} OpenThrough(p: Pairs, r: Ref, x: Ref, ty: EndType, e: Ref)
    requires Closed(p) && FlowInv(p) && Unused(p, r, x) && Closed(OpenPairs(p, r, x, ty)) && e in p.ends
    requires forall i :: 0 <= i < |p.log| ==> p.log[i].writer !in {r, x} && p.log[i].reader !in {r, x}
    ensures var q := OpenPairs(p, r, x, ty); Through(q, e) == Flow(q.log, e, q.ends[e].readable)
  {
    var q := OpenPairs(p, r, x, ty);
    assert Through(p, e) == Flow(p.log, e, p.ends[e].readable);
    hide Closed, Flow;
    if e == r || e == x {
      FlowNone(p.log, e, q.ends[e].readable);
    }
  }

  lemma {:induction false} OpenFlow(p: Pairs, r: Ref, x: Ref, ty: EndType)
    requires Closed(p) && FlowInv(p) && LogOk(p) && Unused(p, r, x) && Closed(OpenPairs(p, r, x, ty))
    ensures FlowInv(OpenPairs(p, r, x, ty)) && LogOk(OpenPairs(p, r, x, ty))
  {
    OpenLog(p, r, x, ty);
    var q := OpenPairs(p, r, x, ty);
    assert q.ends.Keys == p.ends.Keys;
    assert forall e :: e in q.ends && q.ends[e].operation != NULL ==> q.ends[e].operation in q.bufs;
    hide Closed, LogOk, Flow, Through, OpenPairs;
    forall e | e in q.ends
      ensures Through(q, e) == Flow(q.log, e, q.ends[e].readable)
    {
      OpenThrough(p, r, x, ty, e);
    }
  }

  lemma {:induction false} OpenContent(p: Pairs, r: Ref, x: Ref, ty: EndType)
    requires Closed(p) && ContentInv(p) && HostUnique(p) && r in p.ends && x in p.ends && r != x
    requires Closed(OpenPairs(p, r, x, ty))
    ensures ContentInv(OpenPairs(p, r, x, ty)) && HostUnique(OpenPairs(p, r, x, ty))
  {
    hide ContentOk, Apart;
  }

  lemma {:induction false} UnusedIsBlank(p: Pairs, e: Ref)
    requires PairInv(p) && e in p.ends && !p.ends[e].initialized
    ensures p.ends[e] == BLANK
  {
    EndFacts(p, e);
    hide PairInv, OperationOk, LinkOk;
  }

  lemma {:induction false} OpenSound(p: Pairs, r: Ref, x: Ref, ty: EndType)
    requires PairInv(p) && Conserved(p) && r in p.ends && x in p.ends && r != x && !p.ends[r].initialized
    requires !p.ends[x].initialized
    ensures PairInv(OpenPairs(p, r, x, ty)) && Conserved(OpenPairs(p, r, x, ty))
  {
    hide PairInv, Closed, FlowInv, LogOk, ContentInv, HostUnique, PutTwo, Opened;
    UnusedIsBlank(p, r);
    UnusedIsBlank(p, x);
    PairClosed(p);
    OpenPut(p, r, x, ty);
    var q := OpenPairs(p, r, x, ty);
    PutTwoKeeps(p, q, r, Opened(true, ty, x), x, Opened(false, ty, r));
    PairClosed(q);
    OpenFlow(p, r, x, ty);
    OpenContent(p, r, x, ty);
  }

  lemma {:induction false} OpenHomesOk(ends: map<Ref, End>, h: Homes, r: Ref, x: Ref, R: End, X: End, tracked: bool)
    requires HomesOk(ends, h.homes) && r in ends && x in ends && r != x && !ends[r].initialized && !ends[x].initialized
    requires R.initialized && X.initialized && R.peer == x && X.peer == r && R.readable != X.readable && R.ty == X.ty
    ensures HomesOk(ends[r := R][x := X], OpenHomes(h, r, x, tracked).homes)
  {
    var next, homes := ends[r := R][x := X], OpenHomes(h, r, x, tracked).homes;
    assert r !in h.homes && x !in h.homes;
    forall e | e in homes
      ensures e in next && HomeOk(next, homes, e)
    {
      if e != r && e != x {
        OldHome(ends, h.homes, r, x, R, X, tracked, e);
      }
    }
    hide HomeOk;
  }

  lemma {:induction false} OldHome(ends: map<Ref, End>, homes: map<Ref, Home>, r: Ref, x: Ref, R: End, X: End,
      tracked: bool, e: Ref)
    requires r !in homes && x !in homes && e in homes && e in ends && HomeOk(ends, homes, e)
    ensures HomeOk(ends[r := R][x := X], homes[r := Home(r, x, tracked)][x := Home(r, r, tracked)], e)
  {
  }

  lemma {:induction false} OpenFinished(ends: map<Ref, End>, h: Homes, r: Ref, x: Ref, R: End, X: End, tracked: bool,
      f: Ref)
    requires HomesOk(ends, h.homes) && r in ends && x in ends && r != x && !ends[r].initialized && !ends[x].initialized
    requires !R.closed && !X.closed
    ensures var next, homes := ends[r := R][x := X], OpenHomes(h, r, x, tracked).homes;
            Finished(next, homes, f) <==> Finished(ends, h.homes, f)
  {
    if f in h.homes {
      assert HomeOk(ends, h.homes, f);
    }
  }

  lemma {:induction false} OpenHomesKeep(w: World, r: Ref, x: Ref, ty: EndType, tracked: bool)
    requires HomeInv(w) && r in w.p.ends && x in w.p.ends && r != x && !w.p.ends[r].initialized
    requires !w.p.ends[x].initialized
    ensures var ends, h := OpenPairs(w.p, r, x, ty).ends, OpenHomes(w.h, r, x, tracked);
            HomesOk(ends, h.homes) && ReleasedOk(h, ends, {})
  {
    var ends, h := OpenPairs(w.p, r, x, ty).ends, OpenHomes(w.h, r, x, tracked);
    hide HomesOk, Finished, NoDuplicates, OpenHomes;
    OpenHomesOk(w.p.ends, w.h, r, x, Opened(true, ty, x), Opened(false, ty, r), tracked);
    forall f
      ensures Finished(ends, h.homes, f) <==> Finished(w.p.ends, w.h.homes, f)
    {
      OpenFinished(w.p.ends, w.h, r, x, Opened(true, ty, x), Opened(false, ty, r), tracked, f);
    }
    OpenHomesForm(w.h, r, x, tracked);
  }

  lemma {:induction false} OpenHomesForm(h: Homes, r: Ref, x: Ref, tracked: bool)
    ensures OpenHomes(h, r, x, tracked).released == h.released && OpenHomes(h, r, x, tracked).stale == h.stale
  {
  }

  lemma {:induction false} RegisterKeeps(o: Owners, e: Ref, t: Ref)
    requires OwnersInv(o) && e in o.owns && (t == NULL || t in o.tables) && o.owns[e].table == NULL
    requires o.owns[e].valueOwner == NULL
    ensures var q := Register(o, e, t);
            && OwnersInv(q) && q.owns.Keys == o.owns.Keys && q.tables.Keys == o.tables.Keys
            && (forall x :: x in o.owns && x != e ==> q.owns[x] == o.owns[x])
            && q.owns[e].valueOwner == NULL && q.owns[e].syncWaiter == o.owns[e].syncWaiter && q.owns[e].table == t
  {
    hide OwnersInv;
    if t != NULL {
      PublishKeeps(o, e, t);
    }
  }

  /** The undone registration leaves a gap in the handles, nothing else. */
  lemma {:induction false} UnregisterPublished(o: Owners, e: Ref, t: Ref)
    requires OwnersInv(o) && e in o.owns && t in o.tables && o.owns[e].table == NULL
    ensures Unregister(Publish(o, e, t), e) == Bumped(o, t, 1)
  {
    NextIsFree(o, t);
    assert PlaceOk(o, e);
    assert ShapeOk(o.owns[e]);
    assert t != NULL;
    hide OwnersInv, PlaceOk;
    var q := Unregister(Publish(o, e, t), e);
    assert q.tables[t].entries == o.tables[t].entries;
    assert q.owns == o.owns;
    assert q.tables == Bumped(o, t, 1).tables;
  }

  lemma {:induction false} OpenOwns(w: World, p: Pairs, o: Owners, h: Homes, r: Ref, x: Ref)
    requires OwnInv(w) && OwnersInv(o) && p.ends.Keys == w.p.ends.Keys && o.owns.Keys == w.o.owns.Keys
    requires forall e :: e in w.p.ends && e != r && e != x ==> p.ends[e] == w.p.ends[e] && o.owns[e] == w.o.owns[e]
    requires forall e :: e in {r, x} ==>
               e in w.p.ends && p.ends[e].initialized && !p.ends[e].closed && o.owns[e].valueOwner == NULL
    ensures OwnInv(World(p, o, h))
  {
    hide OwnersInv, Frozen;
    forall e | e in o.owns
      ensures OwnOk(p.ends[e], o.owns[e])
    {
      assert OwnOk(w.p.ends[e], w.o.owns[e]);
    }
  }

  lemma {:induction false} UnusedUnowned(w: World, e: Ref)
    requires Inv(w) && e in w.p.ends && !w.p.ends[e].initialized
    ensures w.o.owns[e].table == NULL && w.o.owns[e].valueOwner == NULL && !w.o.owns[e].syncWaiter
  {
    OwnShape(w, e);
    hide Inv;
  }

  lemma {:induction false} OpenedKeeps(w: World, r: Ref, x: Ref, ty: EndType, tr: Ref, tx: Ref, tracked: bool)
    requires CanOpen(w, r, x, tr, tx) && Open(w, r, x, ty, tr, tx, tracked).1 == Ok
    ensures Inv(Open(w, r, x, ty, tr, tx, tracked).0)
  {
    hide PairInv, Conserved, HomeInv, OwnersInv, EachOwnOk, Register, OpenHomes, HomesOk, ReleasedOk;
    UnusedUnowned(w, r);
    UnusedUnowned(w, x);
    RegisterKeeps(w.o, r, tr);
    var o := Register(w.o, r, tr);
    RegisterKeeps(o, x, tx);
    OpenSound(w.p, r, x, ty);
    OpenHomesKeep(w, r, x, ty, tracked);
    var q, h := OpenPairs(w.p, r, x, ty), OpenHomes(w.h, r, x, tracked);
    OpenOwns(w, q, Register(o, x, tx), h, r, x);
    HomeForm(World(q, Register(o, x, tx), h));
  }

  lemma {:induction false} HomeForm(w: World)
    requires HomesOk(w.p.ends, w.h.homes) && ReleasedOk(w.h, w.p.ends, {})
    ensures HomeInv(w)
  {
  }

  lemma {:induction false} OpenUndone(w: World, r: Ref, x: Ref, tr: Ref)
    requires Inv(w) && r in w.o.owns && w.o.owns[r].table == NULL && (tr == NULL || tr in w.o.tables)
    ensures r in Register(w.o, r, tr).owns
    ensures Unregister(Register(w.o, r, tr), r) == if tr == NULL then w.o else Bumped(w.o, tr, 1)
  {
    OwnFacts(w);
    hide Inv, OwnInv, OwnersInv, Bumped;
    if tr != NULL {
      UnregisterPublished(w.o, r, tr);
    }
  }

  lemma {:induction false} BumpedKeeps(w: World, t: Ref, n: nat)
    requires Inv(w) && t in w.o.tables
    ensures Inv(w.(o := Bumped(w.o, t, n)))
  {
    OwnFacts(w);
    hide Inv, OwnInv, OwnersInv;
    BumpKeeps(w.o, t, n);
    OwnsSameKeeps(w, Bumped(w.o, t, n));
  }

  /** A failed open changes nothing but the next free handle. */
  lemma {:induction false} OpenKeeps(w: World, r: Ref, x: Ref, ty: EndType, tr: Ref, tx: Ref, tracked: bool)
    requires CanOpen(w, r, x, tr, tx)
    ensures Inv(Open(w, r, x, ty, tr, tx, tracked).0)
    ensures var (v, status) := Open(w, r, x, ty, tr, tx, tracked);
            status != Ok ==> v == w || (tr in w.o.tables && v == w.(o := Bumped(w.o, tr, 1)))
  {
    hide Inv, Register, Unregister, OpenPairs, OpenHomes, Bumped;
    if Open(w, r, x, ty, tr, tx, tracked).1 == Ok {
      OpenedKeeps(w, r, x, ty, tr, tx, tracked);
    } else if w.o.owns[r].table == NULL {
      OpenUndone(w, r, x, tr);
      if tr != NULL {
        BumpedKeeps(w, tr, 1);
      }
    }
  }

  // ---------------------------------------------------------------- environment

  /** Guests and hosts do what they like with memory and with buffers of their
      own; only the host cells of lent buffers are off limits. */
  ghost predicate EnvOk(p: Pairs, q: Pairs) {
    && q.ends == p.ends && q.log == p.log && Closed(p) && Closed(q)
    && (forall b :: b in p.bufs && p.bufs[b].leased ==> b in q.bufs && q.bufs[b] == p.bufs[b])
    && (forall b :: b in q.bufs && q.bufs[b].leased ==> b in p.bufs && p.bufs[b].leased)
    && (forall b :: b in p.bufs && p.bufs[b].leased && !p.bufs[b].guest ==>
         p.bufs[b].values in q.cells && q.cells[p.bufs[b].values] == p.cells[p.bufs[b].values])
  }

  lemma {:induction false} LentBuffers(p: Pairs)
    requires OperationsOk(p)
    ensures forall e :: e in p.ends && p.ends[e].operation != NULL ==>
              p.ends[e].operation in p.bufs && p.bufs[p.ends[e].operation].leased
  {
  }

  lemma {:induction false} EnvPairs(p: Pairs, q: Pairs)
    requires PairInv(p) && EnvOk(p, q)
    ensures PairInv(q)
  {
    LentBuffers(p);
    hide EndOk, LinkOk, OperationOk, Closed;
  }

  lemma {:induction false} EnvConserves(p: Pairs, q: Pairs)
    requires PairInv(p) && Conserved(p) && EnvOk(p, q)
    ensures Conserved(q)
  {
    LentBuffers(p);
    assert Closed(p) && Closed(q) && FlowInv(p) && ContentInv(p) && HostUnique(p) && LogOk(p);
    hide PairInv, EndOk, LinkOk, OperationOk, EndsOk, LinksOk, OperationsOk, Unshared, LeasesHeld, Flow;
    forall e | e in q.ends && q.ends[e].operation != NULL
      ensures ContentOk(q.ends[e], q.bufs[q.ends[e].operation], q.cells[q.bufs[q.ends[e].operation].values])
    {
      var v := p.bufs[p.ends[e].operation];
      assert ContentOk(p.ends[e], v, p.cells[v.values]);
      if v.guest {
        EnvGuest(p.ends[e], v, p.cells[v.values], q.cells[v.values]);
      }
    }
    hide ContentOk, Apart;
  }

  lemma {:induction false} EnvGuest(E: End, v: Buf, c: seq<Cell>, c': seq<Cell>)
    requires ContentOk(E, v, c) && v.guest
    ensures ContentOk(E, v, c')
  {
  }

  lemma {:induction false} EnvKeeps(w: World, q: Pairs)
    requires Inv(w) && EnvOk(w.p, q)
    ensures Inv(w.(p := q))
  {
    EnvPairs(w.p, q);
    EnvConserves(w.p, q);
    HeldNow(w);
    assert Shift(w.p.ends, q.ends, {}) && q.ends == w.p.ends;
    hide *;
    CalmKeeps(w, q);
  }

  // ---------------------------------------------------------------- runs

  /** Calls on pairs, with the answers of the callbacks they make. */
  datatype PairStep =
    | OpenStep(r: Ref, x: Ref, ty: EndType, tr: Ref, tx: Ref, tracked: bool)
    | SubmitStep(e: Ref, b: Ref, pinned: bool, guestCheck: Status, f: Faults)
    | ForwardStep(s: Ref, d: Ref, f: Faults)

  datatype EndStep =
    | TakeStep(e: Ref, cleanup: Status)
    | CancelStep(e: Ref)
    | CloseStep(e: Ref)

  /** Calls on registrations. */
  datatype TableStep =
    | WaitBeginStep(e: Ref)
    | WaitCancelStep(e: Ref)
    | WaitEndStep(e: Ref, cleanup: Status)
    | JoinSetStep(e: Ref, set_: nat)
    | AttachStep(e: Ref, t: Ref)
    | DetachStep(e: Ref)

  /** Calls on values. */
  datatype ValueStep =
    | IntoValueStep(e: Ref, v: Ref)
    | AdoptStep(v: Ref)
    | SettleStep(v: Ref)
    | TakeValueStep(v: Ref)
    | ReleaseValueStep(v: Ref)

  /** Calls on codecs. */
  datatype CodecStep =
    | LiftStep(c: Ref, h: nat, ty: EndType, v: Ref)
    | LowerStep(c: Ref, v: Ref, ty: EndType)
    | FinishStep(c: Ref, commit: bool)

  datatype Step =
    | OnPair(pair: PairStep) | OnEnd(end: EndStep) | OnTable(table: TableStep)
    | OnValue(value: ValueStep) | OnCodec(codec: CodecStep) | Env(q: Pairs)

  /** The arguments of a step are objects of the world (a new value is a fresh
      one), and the caller lends no host cells twice. Nothing else is asked. */
  ghost predicate Known(w: World, s: Step)
    requires Inv(w)
  {
    match s
    case OnPair(OpenStep(r, x, ty, tr, tx, tracked)) => CanOpen(w, r, x, tr, tx)
    case OnPair(SubmitStep(e, b, pinned, guestCheck, f)) => e in w.p.ends && b in w.p.bufs && Duty(w.p, e, b)
    case OnPair(ForwardStep(s, d, f)) => s in w.p.ends && d in w.p.ends
    case OnEnd(any) => any.e in w.p.ends
    case OnTable(AttachStep(e, t)) => e in w.p.ends && t in w.o.tables
    case OnTable(other) => other.e in w.p.ends
    case OnValue(IntoValueStep(e, v)) => e in w.p.ends && v !in w.o.owners
    case OnCodec(LiftStep(c, h, ty, v)) => c in w.o.codecs && v !in w.o.owners
    case OnCodec(LowerStep(c, v, ty)) => c in w.o.codecs && v in w.o.owners
    case OnCodec(FinishStep(c, commit)) => c in w.o.codecs
    case OnValue(other) => other.v in w.o.owners
    case Env(q) => EnvOk(w.p, q)
  }

  ghost function DoPair(w: World, s: PairStep): (r: (World, Status))
    requires Inv(w) && Known(w, OnPair(s))
  {
    match s
    case OpenStep(r, x, ty, tr, tx, tracked) => Open(w, r, x, ty, tr, tx, tracked)
    case SubmitStep(e, b, pinned, guestCheck, f) => Submit(w, e, b, pinned, guestCheck, f)
    case ForwardStep(s, d, f) => Forward(w, s, d, f)
  }

  ghost function DoEnd(w: World, s: EndStep): (r: (World, Status))
    requires Inv(w) && Known(w, OnEnd(s))
  {
    match s
    case TakeStep(e, cleanup) => (Take(w, e, cleanup).0, Take(w, e, cleanup).1)
    case CancelStep(e) => Cancel(w, e)
    case CloseStep(e) => Close(w, e)
  }

  ghost function DoTable(w: World, s: TableStep): (r: (World, Status))
    requires Inv(w) && Known(w, OnTable(s))
  {
    match s
    case WaitBeginStep(e) => WaitBegin(w, e)
    case WaitCancelStep(e) => WaitCancel(w, e)
    case WaitEndStep(e, cleanup) => (WaitEnd(w, e, cleanup).0, WaitEnd(w, e, cleanup).1)
    case JoinSetStep(e, set_) => JoinSet(w, e, set_)
    case AttachStep(e, t) => Attach(w, e, t)
    case DetachStep(e) => Detach(w, e)
  }

  ghost function DoValue(w: World, s: ValueStep): (r: (World, Status))
    requires Inv(w) && Known(w, OnValue(s))
  {
    match s
    case IntoValueStep(e, v) => IntoValue(w, e, v)
    case AdoptStep(v) => Adopt(w, v)
    case SettleStep(v) => Settle(w, v)
    case TakeValueStep(v) => TakeValue(w, v)
    case ReleaseValueStep(v) => ReleaseValue(w, v)
  }

  ghost function DoCodec(w: World, s: CodecStep): (r: (World, Status))
    requires Inv(w) && Known(w, OnCodec(s))
  {
    match s
    case LiftStep(c, h, ty, v) => Lift(w, c, h, ty, v)
    case LowerStep(c, v, ty) => Lower(w, c, v, ty)
    case FinishStep(c, commit) => Finish(w, c, commit)
  }

  ghost function Do(w: World, s: Step): (r: (World, Status))
    requires Inv(w) && Known(w, s)
  {
    match s
    case OnPair(p) => DoPair(w, p)
    case OnEnd(e) => DoEnd(w, e)
    case OnTable(t) => DoTable(w, t)
    case OnValue(v) => DoValue(w, v)
    case OnCodec(c) => DoCodec(w, c)
    case Env(q) => (w.(p := q), Ok)
  }

  lemma {:induction false} DoKeeps(w: World, s: Step)
    requires Inv(w) && Known(w, s)
    ensures Inv(Do(w, s).0)
  {
    hide Inv, Open, Submit, Take, Cancel, Close, Forward, WaitBegin, WaitCancel, WaitEnd, JoinSet, Attach, Detach;
    hide IntoValue, Adopt, Settle, TakeValue, ReleaseValue, Lift, Lower, Finish, Duty, EnvOk, CanOpen;
    match s
    case OnPair(OpenStep(r, x, ty, tr, tx, tracked)) => OpenKeeps(w, r, x, ty, tr, tx, tracked);
    case OnPair(SubmitStep(e, b, pinned, guestCheck, f)) => SubmitKeeps(w, e, b, pinned, guestCheck, f);
    case OnEnd(TakeStep(e, cleanup)) => TakeKeeps(w, e, cleanup);
    case OnEnd(CancelStep(e)) => CancelKeepsAll(w, e);
    case OnEnd(CloseStep(e)) => CloseKeepsAll(w, e);
    case OnPair(ForwardStep(s, d, f)) => ForwardKeepsAll(w, s, d, f);
    case OnTable(WaitEndStep(e, cleanup)) => WaitEndKeeps(w, e, cleanup);
    case OnTable(JoinSetStep(e, set_)) => WaitsKeep(w, e, set_);
    case OnTable(AttachStep(e, t)) => AttachKeeps(w, e, t);
    case OnTable(DetachStep(e)) => DetachKeeps(w, e);
    case OnTable(other) => WaitsKeep(w, other.e, 0);
    case OnValue(IntoValueStep(e, v)) => IntoValueKeeps(w, e, v);
    case OnValue(ReleaseValueStep(v)) => ReleaseValueKeeps(w, v);
    case OnCodec(LiftStep(c, h, ty, v)) => LiftKeeps(w, c, h, ty, v);
    case OnCodec(LowerStep(c, v, ty)) => LowerKeeps(w, c, v, ty);
    case OnCodec(FinishStep(c, commit)) => FinishKeeps(w, c, commit);
    case OnValue(other) => ValuesKeep(w, other.v);
    case Env(q) => EnvKeeps(w, q);
  }

  /** Unused ends, empty tables and empty scopes, in any number. */
  ghost predicate Initial(w: World) {
    && w.p.ends.Keys == w.o.owns.Keys && NULL !in w.p.ends
    && (forall e :: e in w.p.ends ==> w.p.ends[e] == BLANK && w.o.owns[e] == UNOWNED)
    && w.p.bufs == map[] && w.p.cells == map[] && w.p.log == []
    && NULL !in w.o.tables && (forall t :: t in w.o.tables ==> w.o.tables[t].entries == map[] && w.o.tables[t].next > 0)
    && w.o.owners == map[]
    && NULL !in w.o.codecs
    && (forall c :: c in w.o.codecs ==> w.o.codecs[c].table in w.o.tables && w.o.codecs[c].chain == [])
    && w.h == Homes(map[], [], false)
  }

  lemma {:induction false} InitialOwners(w: World)
    requires Initial(w)
    ensures OwnersInv(w.o)
  {
  }

  lemma {:induction false} InitialPairs(w: World)
    requires Initial(w)
    ensures PairInv(w.p) && Conserved(w.p)
  {
  }

  lemma {:induction false} InitialInv(w: World)
    requires Initial(w)
    ensures Inv(w)
  {
    hide OwnersInv, PairInv, Conserved;
    InitialOwners(w);
    InitialPairs(w);
  }

  /** The state after `steps`, if each of them was called with known objects. */
  ghost function After(w: World, steps: seq<Step>): (r: Option<World>)
    requires Inv(w)
    ensures r.Some? ==> Inv(r.value)
    decreases |steps|
  {
    if steps == [] then Some(w)
    else if !Known(w, steps[0]) then None
    else
      DoKeeps(w, steps[0]);
      After(Do(w, steps[0]).0, steps[1..])
  }
}
