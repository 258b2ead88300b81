/**
  The promises of the endpoint layer, for every run.
 */
module EndpointTheorems {
  import opened Common
  import opened AsyncState
  import opened EndpointModel
  import opened EndpointInvariant
  import opened EndpointFlow
  import opened EndpointOwnership
  import opened EndpointTransactions
  import opened EndpointHomes
  import opened EndpointSteps
  import opened EndpointMoves
  import opened EndpointRuns
  import opened EndpointProgress

  // ---------------------------------------------------------------- every run

  lemma {:induction false} RunAdvances(w: World, steps: seq<Step>)
    requires Inv(w) && After(w, steps).Some?
    ensures Advance(w.p, After(w, steps).value.p)
    decreases |steps|
  {
    hide Inv, Advance, Known, Do;
    if steps == [] {
      SameAdvance(w.p);
    } else {
      DoKeeps(w, steps[0]);
      DoAdvances(w, steps[0]);
      var v := Do(w, steps[0]).0;
      RunAdvances(v, steps[1..]);
      AdvanceTrans(w.p, v.p, After(v, steps[1..]).value.p);
    }
  }

  lemma {:induction false} AdvanceFutures(p: Pairs, q: Pairs)
    requires Advance(p, q) && FutureInv(p)
    ensures FutureInv(q)
  {
    hide FutureOne, Onward;
  }

  lemma {:induction false} InitialFutures(w: World)
    requires Initial(w)
    ensures FutureInv(w.p)
  {
  }

  /** In every reachable state the whole invariant holds, each end has one owner,
      and a future has carried at most one element in all. */
  lemma {:induction false} EveryRun(w: World, steps: seq<Step>)
    requires Initial(w)
    ensures Inv(w)
    ensures After(w, steps).Some? ==>
              && Inv(After(w, steps).value)
              && (forall e :: e in After(w, steps).value.o.owns ==> SingleOwner(After(w, steps).value.o, e))
              && FutureInv(After(w, steps).value.p)
  {
    InitialInv(w);
    InitialFutures(w);
    hide Initial, Advance, FutureInv, PairInv, Conserved, HomeInv, OwnersInv, EachOwnOk, SingleOwner;
    if After(w, steps).Some? {
      RunAdvances(w, steps);
      var v := After(w, steps).value;
      AdvanceFutures(w.p, v.p);
      forall e | e in v.o.owns
        ensures SingleOwner(v.o, e)
      {
        OneOwner(v, e);
      }
    }
  }

  lemma {:induction false} FutureCarriesOne(w: World, e: Ref)
    requires Inv(w) && FutureInv(w.p) && e in w.p.ends && w.p.ends[e].initialized && w.p.ends[e].ty.future
    ensures Closed(w.p) && |Through(w.p, e)| <= 1
  {
    assert FutureOne(w.p.ends[e]);
    PairClosed(w.p);
    hide PairInv, Conserved, HomeInv, OwnInv, FutureInv;
    if w.p.ends[e].operation != NULL {
      MovedCount(w.p, e);
    }
  }

  // ---------------------------------------------------------------- conservation

  /** A pending operation on host cells: the cells of a reader hold exactly what
      arrived, and the cells of a writer exactly what has not left. */
  predicate HostExact(E: End, v: Buf, cells: seq<Cell>) {
    && |v.moved| == E.state.progress <= v.length <= |cells|
    && (E.readable ==> cells[..|v.moved|] == v.moved && forall i :: |v.moved| <= i < v.length ==> cells[i] == Empty)
    && (!E.readable ==> |v.lent| == |cells| && v.moved + cells[|v.moved|..v.length] == v.lent[..v.length])
  }

  lemma {:induction false} HostContent(E: End, v: Buf, cells: seq<Cell>)
    requires ContentOk(E, v, cells) && E.failure == Ok && E.ty.hasPayload && !v.guest && v.progress == E.state.progress
    ensures HostExact(E, v, cells)
  {
    if !E.readable {
      assert v.lent[..v.length] == v.lent[..v.progress] + v.lent[v.progress..v.length];
    }
  }

  /** One history of transfers accounts for both sides: what a writing end gave
      away, and what a reading end got, are the batches of its own transfers, in
      order. */
  lemma {:induction false} ElementsConserved(w: World, e: Ref)
    requires Inv(w) && e in w.p.ends
    ensures Closed(w.p) && Through(w.p, e) == Flow(w.p.log, e, w.p.ends[e].readable)
    ensures var E := w.p.ends[e];
            E.operation != NULL && E.failure == Ok && E.ty.hasPayload && !w.p.bufs[E.operation].guest ==>
              HostExact(E, w.p.bufs[E.operation], w.p.cells[w.p.bufs[E.operation].values])
  {
    PairClosed(w.p);
    var E := w.p.ends[e];
    FlowOf(w.p, e);
    if E.operation != NULL && E.failure == Ok && E.ty.hasPayload && !w.p.bufs[E.operation].guest {
      MovedCount(w.p, e);
      EndFacts(w.p, e);
      var v := w.p.bufs[E.operation];
      assert v.progress == E.state.progress;
      hide Inv, Flow, Through, EndOk, LinkOk, OperationOk, ContentOk, HostExact, Closed;
      HostContent(E, v, w.p.cells[v.values]);
    }
    hide Inv, Flow, Through, HostExact, Closed;
  }

  lemma {:induction false} FlowOf(p: Pairs, e: Ref)
    requires Conserved(p) && e in p.ends
    ensures Closed(p) && Through(p, e) == Flow(p.log, e, p.ends[e].readable)
    ensures p.ends[e].operation != NULL ==>
              ContentOk(p.ends[e], p.bufs[p.ends[e].operation], p.cells[p.bufs[p.ends[e].operation].values])
  {
    hide Flow, ContentOk, HostUnique, LogOk;
  }

  /** A batch that one side logs, the other side logs too. */
  lemma {:induction false} FlowPaired(log: seq<Transfer>, x: Ref, r: Ref)
    requires forall i :: 0 <= i < |log| ==> (log[i].writer == x <==> log[i].reader == r)
    ensures Flow(log, x, false) == Flow(log, r, true)
  {
    if log != [] {
      FlowPaired(log[..|log| - 1], x, r);
    }
  }

  // Without `forward`, ends only ever meet the end they were created with.

  ghost predicate Straight(w: World) {
    && (forall e :: e in w.p.ends && w.p.ends[e].peer != NULL ==>
         e in w.h.homes && w.p.ends[e].peer == w.h.homes[e].other)
    && (forall i :: 0 <= i < |w.p.log| ==>
         w.p.log[i].writer in w.h.homes && w.p.log[i].reader == w.h.homes[w.p.log[i].writer].other)
  }

  /** Links were only cut, and new transfers went along links. */
  ghost predicate AlongLinks(p: Pairs, q: Pairs) {
    && q.ends.Keys == p.ends.Keys
    && (forall e :: e in p.ends ==> q.ends[e].peer == p.ends[e].peer || q.ends[e].peer == NULL)
    && p.log <= q.log
    && (forall i :: |p.log| <= i < |q.log| ==>
         q.log[i].writer in p.ends && p.ends[q.log[i].writer].peer == q.log[i].reader && q.log[i].reader != NULL)
  }

  lemma {:induction false} AlongKeeps(w: World, v: World)
    requires Straight(w) && AlongLinks(w.p, v.p) && v.h.homes == w.h.homes
    ensures Straight(v)
  {
    forall i | 0 <= i < |v.p.log|
      ensures v.p.log[i].writer in v.h.homes && v.p.log[i].reader == v.h.homes[v.p.log[i].writer].other
    {
      if i < |w.p.log| {
        assert v.p.log[i] == w.p.log[i];
      }
    }
  }

  lemma {:induction false} SubmitAlong(w: World, e: Ref, b: Ref, pinned: bool, guestCheck: Status, f: Faults)
    requires Inv(w) && e in w.p.ends && b in w.p.bufs && Duty(w.p, e, b)
    ensures AlongLinks(w.p, Submit(w, e, b, pinned, guestCheck, f).0.p)
  {
    hide PairInv, Conserved, HomeInv, OwnersInv, EachOwnOk, Admit, SubmitPlan, SubmitCheck, Duty, EndOk, OperationOk;
    hide LinkOk;
    PairClosed(w.p);
    if SubmitCheck(w, e, b, pinned, guestCheck) == Ok {
      SubmitChecked(w, e, b, pinned, guestCheck);
      AdmitSound(w.p, e, b, guestCheck, f);
      AdmitLog(w.p, e, b, SubmitPlan(w.p, e, b).value, f);
      EndFacts(w.p, e);
      EndNotNull(w.p, e);
    }
  }

  lemma {:induction false} CloseAlong(w: World, e: Ref)
    requires Inv(w) && e in w.p.ends
    ensures AlongLinks(w.p, Close(w, e).0.p) && Close(w, e).0.h.homes == w.h.homes
  {
    hide PairInv, Conserved, HomeInv, OwnersInv, EachOwnOk, CloseCheck, DroppedByPeer, Unregister;
    PairClosed(w.p);
  }

  lemma {:induction false} DeliverAlong(w: World, e: Ref, cleanup: Status)
    requires Closed(w.p) && e in w.p.ends
    ensures AlongLinks(w.p, Deliver(w, e, cleanup).0.p) && Deliver(w, e, cleanup).0.h == w.h
  {
    hide Delivered;
  }

  lemma {:induction false} OpenedStraight(w: World, r: Ref, x: Ref, ty: EndType, o: Owners, tracked: bool)
    requires Straight(w) && r in w.p.ends && x in w.p.ends && r != x && r !in w.h.homes && x !in w.h.homes
    ensures Straight(World(OpenPairs(w.p, r, x, ty), o, OpenHomes(w.h, r, x, tracked)))
  {
  }

  lemma {:induction false} UnusedHomeless(w: World, e: Ref)
    requires Inv(w) && e in w.p.ends && !w.p.ends[e].initialized
    ensures e !in w.h.homes
  {
    hide PairInv, Conserved, OwnInv, ReleasedOk, HomeOk;
  }

  lemma {:induction false} OpenStraight(w: World, r: Ref, x: Ref, ty: EndType, tr: Ref, tx: Ref, tracked: bool)
    requires CanOpen(w, r, x, tr, tx) && Straight(w)
    ensures Straight(Open(w, r, x, ty, tr, tx, tracked).0)
  {
    hide Inv, Register, Unregister, OpenPairs, OpenHomes, HasRoom;
    if Open(w, r, x, ty, tr, tx, tracked).1 == Ok {
      UnusedHomeless(w, r);
      UnusedHomeless(w, x);
      hide Straight;
      OpenedStraight(w, r, x, ty, Open(w, r, x, ty, tr, tx, tracked).0.o, tracked);
    }
  }

  lemma {:induction false} SameAlong(p: Pairs, q: Pairs)
    requires q.ends == p.ends && q.log == p.log
    ensures AlongLinks(p, q)
  {
  }

  lemma {:induction false} CancelAlong(w: World, e: Ref)
    requires Inv(w) && e in w.p.ends
    ensures AlongLinks(w.p, Cancel(w, e).0.p) && Cancel(w, e).0.h == w.h
  {
    hide PairInv, Conserved, HomeInv, OwnersInv, EachOwnOk, CancelRequested;
  }

  lemma {:induction false} EndStepStraight(w: World, s: EndStep)
    requires Inv(w) && Known(w, OnEnd(s)) && Straight(w)
    ensures Straight(DoEnd(w, s).0)
  {
    hide Straight, AlongLinks, Close, Cancel, Deliver, PairInv, Conserved, HomeInv, OwnersInv, EachOwnOk;
    PairClosed(w.p);
    var v := DoEnd(w, s).0;
    match s
    case TakeStep(e, cleanup) =>
      DeliverAlong(w, e, cleanup);
      SameAlong(w.p, w.p);
      AlongKeeps(w, v);
    case CancelStep(e) =>
      CancelAlong(w, e);
      AlongKeeps(w, v);
    case CloseStep(e) =>
      CloseAlong(w, e);
      AlongKeeps(w, v);
  }

  lemma {:induction false} OwnerHomes(w: World, s: Step)
    requires Inv(w) && Known(w, s) && (s.OnTable? || s.OnValue? || s.OnCodec?)
    requires !(s.OnTable? && s.table.WaitEndStep?) && !(s.OnValue? && s.value.ReleaseValueStep?)
    ensures Do(w, s).0.h == w.h
  {
    hide Inv, Waiting, Publish, Unregister, Bind, Unbind, SetFlags, Reserve, CommitAll, RollbackAll, Preflight;
    hide MovableReadable, HasRoom;
    if s.OnCodec? && s.codec.LiftStep? {
      LiftHomes(w, s.codec.c, s.codec.h, s.codec.ty, s.codec.v);
      hide Lift;
    }
  }

  lemma {:induction false} LiftHomes(w: World, c: Ref, h: nat, ty: EndType, v: Ref)
    requires Inv(w) && c in w.o.codecs && v !in w.o.owners
    ensures Lift(w, c, h, ty, v).0.h == w.h
  {
    hide PairInv, Conserved, HomeInv, OwnersInv, EachOwnOk, Bind, Unregister;
    CodecTable(w, c);
  }

  lemma {:induction false} WaitEndStraight(w: World, e: Ref, cleanup: Status)
    requires Inv(w) && e in w.p.ends && Straight(w)
    ensures Straight(WaitEnd(w, e, cleanup).0)
  {
    hide Straight, AlongLinks, Deliver, PairInv, Conserved, HomeInv, OwnersInv, EachOwnOk, Waiting;
    WaitEndPairs(w, e, cleanup);
    DeliverAlong(w, e, cleanup);
    SameAlong(w.p, w.p);
    AlongKeeps(w, WaitEnd(w, e, cleanup).0);
  }

  lemma {:induction false} ReleaseValueStraight(w: World, v: Ref)
    requires Inv(w) && v in w.o.owners && Straight(w)
    ensures Straight(ReleaseValue(w, v).0)
  {
    hide Straight, AlongLinks, Close, PairInv, Conserved, HomeInv, OwnersInv, EachOwnOk, Unbind, Frozen;
    SameAlong(w.p, w.p);
    var e := w.o.owners[v].endpoint;
    if e != NULL {
      ValueOwns(w, v);
      if w.o.owns[e].lowerScope == NULL {
        UnbindWorld(w, e, v);
        CloseAlong(w.(o := Unbind(w.o, e, v)), e);
      }
    }
    AlongKeeps(w, ReleaseValue(w, v).0);
  }

  lemma {:induction false} PairStepStraight(w: World, s: PairStep)
    requires Inv(w) && Known(w, OnPair(s)) && Straight(w) && !s.ForwardStep?
    ensures Straight(DoPair(w, s).0)
  {
    match s
    case OpenStep(r, x, ty, tr, tx, tracked) =>
      OpenStraight(w, r, x, ty, tr, tx, tracked);
      hide Inv, Open;
    case SubmitStep(e, b, pinned, guestCheck, f) =>
      SubmitAlong(w, e, b, pinned, guestCheck, f);
      SubmitHomes(w, e, b, pinned, guestCheck, f);
      AlongKeeps(w, Submit(w, e, b, pinned, guestCheck, f).0);
      hide Inv, Submit, Straight;
  }

  lemma {:induction false} SubmitHomes(w: World, e: Ref, b: Ref, pinned: bool, guestCheck: Status, f: Faults)
    requires Inv(w) && e in w.p.ends && b in w.p.bufs && Duty(w.p, e, b)
    ensures Submit(w, e, b, pinned, guestCheck, f).0.h == w.h
  {
    hide Inv, Admit, SubmitPlan, SubmitCheck, Duty;
  }

  lemma {:induction false} StraightKeeps(w: World, s: Step)
    requires Inv(w) && Known(w, s) && Straight(w) && !(s.OnPair? && s.pair.ForwardStep?)
    ensures Straight(Do(w, s).0)
  {
    hide Inv, Straight, AlongLinks, DoPair, DoEnd, WaitEnd, ReleaseValue, EnvOk;
    if s.OnPair? {
      PairStepStraight(w, s.pair);
    } else if s.OnEnd? {
      EndStepStraight(w, s.end);
    } else if s.OnTable? && s.table.WaitEndStep? {
      WaitEndStraight(w, s.table.e, s.table.cleanup);
    } else if s.OnValue? && s.value.ReleaseValueStep? {
      ReleaseValueStraight(w, s.value.v);
    } else if s.Env? {
      EnvStraight(w, s.q);
    } else {
      OwnerStepsAdvance(w, s);
      OwnerHomes(w, s);
      SameAlong(w.p, w.p);
      AlongKeeps(w, Do(w, s).0);
    }
  }

  lemma {:induction false} EnvStraight(w: World, q: Pairs)
    requires Straight(w) && EnvOk(w.p, q)
    ensures Straight(w.(p := q))
  {
    SameAlong(w.p, q);
    AlongKeeps(w, w.(p := q));
  }

  lemma {:induction false} StraightRun(w: World, steps: seq<Step>)
    requires Inv(w) && Straight(w) && After(w, steps).Some?
    requires forall i :: 0 <= i < |steps| ==> !(steps[i].OnPair? && steps[i].pair.ForwardStep?)
    ensures Straight(After(w, steps).value)
    decreases |steps|
  {
    hide Inv, Straight, Known, Do;
    if steps != [] {
      assert !(steps[0].OnPair? && steps[0].pair.ForwardStep?);
      DoKeeps(w, steps[0]);
      StraightKeeps(w, steps[0]);
      StraightRun(Do(w, steps[0]).0, steps[1..]);
    }
  }

  lemma {:induction false} InitialStraight(w: World)
    requires Initial(w)
    ensures Straight(w)
  {
  }

  /** In every run without `forward`, what a writing end gave away is exactly,
      and in the same order, what the reading end of its pair got. */
  lemma {:induction false} PairConserved(w: World, steps: seq<Step>, e: Ref)
    requires Initial(w) && Inv(w) && After(w, steps).Some?
    requires forall i :: 0 <= i < |steps| ==> !(steps[i].OnPair? && steps[i].pair.ForwardStep?)
    requires var v := After(w, steps).value; e in v.h.homes && e in v.p.ends && !v.p.ends[e].readable
    ensures var v := After(w, steps).value; var r := v.h.homes[e].other;
            && Closed(v.p) && r in v.p.ends && v.p.ends[r].readable
            && Through(v.p, r) == Through(v.p, e)
  {
    InitialStraight(w);
    hide Initial, Known;
    StraightRun(w, steps);
    var v := After(w, steps).value;
    PairedLog(v, e);
    var r := v.h.homes[e].other;
    FlowPaired(v.p.log, e, r);
    ElementsConserved(v, e);
    ElementsConserved(v, r);
    hide Inv, Straight, Flow, Through;
  }

  lemma {:induction false} PairedLog(v: World, e: Ref)
    requires Inv(v) && Straight(v) && e in v.h.homes
    ensures e in v.p.ends && v.h.homes[e].other in v.p.ends
    ensures v.p.ends[v.h.homes[e].other].readable != v.p.ends[e].readable
    ensures forall i :: 0 <= i < |v.p.log| ==> (v.p.log[i].writer == e <==> v.p.log[i].reader == v.h.homes[e].other)
  {
    hide PairInv, Conserved, OwnInv, ReleasedOk;
    assert HomeOk(v.p.ends, v.h.homes, e);
    forall i | 0 <= i < |v.p.log|
      ensures v.p.log[i].writer == e <==> v.p.log[i].reader == v.h.homes[e].other
    {
      assert HomeOk(v.p.ends, v.h.homes, v.p.log[i].writer);
    }
  }
}
