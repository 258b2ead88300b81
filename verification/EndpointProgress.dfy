/**
  What no step ever takes back: failures, closed ends, delivered elements and
  committed transfers. And: a future carries at most one element.
 */
module EndpointProgress {
  import opened Common
  import opened AsyncState
  import opened EndpointModel
  import opened EndpointInvariant
  import opened EndpointFlow
  import opened EndpointOwnership
  import opened EndpointTransactions
  import opened EndpointHomes
  import opened EndpointSteps
  import opened EndpointMoves
  import opened EndpointRuns

  /** `F` is a later state of the end `E`. */
  predicate Onward(E: End, F: End) {
    && (E.failure != Ok ==> F.failure == E.failure)
    && (E.closed ==> F.closed)
    && (E.initialized ==> F.initialized && F.ty == E.ty && F.readable == E.readable)
    && E.hist <= F.hist
    && (E.failure != Ok && E.operation == NULL ==> F.operation == NULL)
  }

  /** A future has delivered nothing while it can still be submitted to. */
  predicate FutureOne(E: End) {
    E.initialized && E.ty.future ==>
      && |E.hist| <= 1
      && (E.operation != NULL ==> E.hist == [])
      && (E.state.phase.Idle? && E.failure == Ok ==> E.hist == [])
  }

  predicate Ages(E: End, F: End) {
    Onward(E, F) && (FutureOne(E) ==> FutureOne(F))
  }

  ghost predicate Advance(p: Pairs, q: Pairs) {
    && q.ends.Keys == p.ends.Keys && p.log <= q.log
    && (forall x :: x in p.ends ==> Ages(p.ends[x], q.ends[x]))
  }

  ghost predicate FutureInv(p: Pairs) {
    forall e :: e in p.ends ==> FutureOne(p.ends[e])
  }

  // ---------------------------------------------------------------- each operation

  lemma {:induction false} TransferLog(p: Pairs, r: Ref, w: Ref, count: nat, f: Faults)
    requires CanTransfer(p, r, w, count)
    ensures var (q, status) := TransferBuffers(p, r, w, count, f);
            p.log <= q.log && |q.log| <= |p.log| + 1
              && (|q.log| == |p.log| + 1 ==> q.log[|p.log|].writer == w && q.log[|p.log|].reader == r)
  {
    hide BufferCopy;
  }

  lemma {:induction false} AdmitLog(p: Pairs, e: Ref, b: Ref, plan: Plan, f: Faults)
    requires CanAdmit(p, e, b, plan)
    ensures p.log <= Admit(p, e, b, plan, f).log && |Admit(p, e, b, plan, f).log| <= |p.log| + 1
    ensures |Admit(p, e, b, plan, f).log| == |p.log| + 1 ==>
              p.ends[e].peer != NULL &&
              Admit(p, e, b, plan, f).log[|p.log|].writer == WriterOf(p, e)
                && Admit(p, e, b, plan, f).log[|p.log|].reader == ReaderOf(p, e)
  {
    if plan.count != 0 {
      TransferLog(Lend(p, e, b, plan.count), ReaderOf(p, e), WriterOf(p, e), plan.count, f);
    }
    hide TransferBuffers, CanTransfer, AdmittedEnd, AdmittedPeer;
  }

  lemma {:induction false} AdmitAges(E: End, b: Ref, plan: Plan, count: nat, status: Status)
    requires E.failure == Ok && E.state.phase.Idle?
    ensures Ages(E, AdmittedEnd(E, b, plan)) && Ages(E, Fail(LentEnd(E, b, count), status))
  {
  }

  lemma {:induction false} PeerAges(P: End, plan: Plan, status: Status)
    requires P.failure == Ok && (P.operation == NULL ==> AdmittedPeer(P, plan) == P)
    ensures Ages(P, AdmittedPeer(P, plan))
    ensures P.operation != NULL ==> Ages(P, Fail(P, status))
  {
  }

  lemma {:induction false} TwoAge(p: Pairs, q: Pairs, e: Ref, E: End, f: Ref, F: End)
    requires TwoEnds(p, q, e, E, f, F) && p.log <= q.log && Ages(p.ends[e], E) && Ages(p.ends[f], F)
    ensures Advance(p, q)
  {
  }

  lemma {:induction false} AdmitLinkedAdvances(p: Pairs, e: Ref, b: Ref, plan: Plan, f: Faults)
    requires Admissible(p, e, b) && p.ends[e].peer != NULL && SubmitPlan(p, e, b) == Some(plan)
    requires CanAdmit(p, e, b, plan)
    ensures Advance(p, Admit(p, e, b, plan, f))
  {
    LinkedPlan(p, e, b);
    EndFacts(p, e);
    AdmitLog(p, e, b, plan, f);
    var peer, q := p.ends[e].peer, Admit(p, e, b, plan, f);
    var E, P := p.ends[e], p.ends[peer];
    if P.operation == NULL {
      PlanLeavesIdle(p, e, b, plan);
    }
    hide Closed, LinksOk, OperationsOk, Unshared, LeasesHeld, EndsOk, SubmitPlan, PlanSubmit;
    hide Admit, PutTwo, CopyReady, EndOk, OperationOk, AdmitStatus, CanAdmit, Advance, Ages, AdmittedEnd, AdmittedPeer;
    hide Fail, LentEnd;
    PeerAges(P, plan, Ok);
    AdmitAges(E, b, plan, plan.count, Ok);
    if plan.count == 0 {
      AdmitWaitingPut(p, e, b, plan, f);
      PutTwoEnds(p, q, e, AdmittedEnd(E, b, plan), peer, AdmittedPeer(P, plan));
      TwoAge(p, q, e, AdmittedEnd(E, b, plan), peer, AdmittedPeer(P, plan));
    } else {
      AdmitCopyReady(p, e, b, plan);
      var status := AdmitStatus(p, e, b, plan, f);
      if status == Ok {
        AdmitCopiedFacts(p, e, b, plan, f);
        TwoAge(p, q, e, AdmittedEnd(E, b, plan), peer, AdmittedPeer(P, plan));
      } else {
        AdmitFailedFacts(p, e, b, plan, f);
        PeerAges(P, plan, status);
        AdmitAges(E, b, plan, plan.count, status);
        TwoAge(p, q, e, Fail(LentEnd(E, b, plan.count), status), peer, Fail(P, status));
      }
    }
  }

  lemma {:induction false} AdmitUnlinkedAdvances(p: Pairs, e: Ref, b: Ref, plan: Plan, f: Faults)
    requires Admissible(p, e, b) && p.ends[e].peer == NULL && CanAdmit(p, e, b, plan) && plan.count == 0
    ensures Advance(p, Admit(p, e, b, plan, f))
  {
    hide Closed, LinksOk, OperationsOk, Unshared, LeasesHeld, EndsOk, AdmittedEnd, Ages;
    AdmitAges(p.ends[e], b, plan, 0, Ok);
    forall x | x in p.ends
      ensures Ages(p.ends[x], p.ends[x])
    {
      AgesSame(p.ends[x]);
    }
  }

  lemma {:induction false} AgesSame(E: End)
    ensures Ages(E, E)
  {
  }

  lemma {:induction false} SubmitAdvances(w: World, e: Ref, b: Ref, pinned: bool, guestCheck: Status, f: Faults)
    requires Inv(w) && e in w.p.ends && b in w.p.bufs && Duty(w.p, e, b)
    ensures Advance(w.p, Submit(w, e, b, pinned, guestCheck, f).0.p)
  {
    hide PairInv, Conserved, HomeInv, OwnersInv, EachOwnOk, Advance, Admit, SubmitPlan, SubmitCheck;
    PairClosed(w.p);
    if SubmitCheck(w, e, b, pinned, guestCheck) == Ok {
      SubmitChecked(w, e, b, pinned, guestCheck);
      AdmitSound(w.p, e, b, guestCheck, f);
      var plan := SubmitPlan(w.p, e, b).value;
      if w.p.ends[e].peer == NULL {
        UnlinkedPlan(w.p, e, b);
        AdmitUnlinkedAdvances(w.p, e, b, plan, f);
      } else {
        AdmitLinkedAdvances(w.p, e, b, plan, f);
      }
    } else {
      SameAdvance(w.p);
    }
  }

  lemma {:induction false} SameAdvance(p: Pairs)
    ensures Advance(p, p)
  {
    hide Ages;
    forall x | x in p.ends
      ensures Ages(p.ends[x], p.ends[x])
    {
      AgesSame(p.ends[x]);
    }
  }

  lemma {:induction false} OneAge(p: Pairs, q: Pairs, e: Ref)
    requires e in p.ends && q.ends.Keys == p.ends.Keys && q.log == p.log && Ages(p.ends[e], q.ends[e])
    requires forall x :: x in p.ends && x != e ==> q.ends[x] == p.ends[x]
    ensures Advance(p, q)
  {
    hide Ages;
    forall x | x in p.ends
      ensures Ages(p.ends[x], q.ends[x])
    {
      AgesSame(p.ends[x]);
    }
  }

  /** A delivered future that can be submitted to again has carried nothing. */
  lemma {:induction false} ReleaseAges(E: End, moved: seq<Cell>)
    requires EndOk(E) && E.initialized && Delivered(E.state).Some?
    requires E.operation == NULL ==> moved == []
    requires E.operation != NULL && E.ty.future ==> |moved| <= 1 && (E.failure == Ok ==> |moved| == E.state.progress)
    ensures Ages(E, ReleasedEnd(E, Delivered(E.state).value.state, moved))
  {
  }

  lemma {:induction false} MovedCount(p: Pairs, e: Ref)
    requires PairInv(p) && Conserved(p) && e in p.ends && p.ends[e].operation != NULL
    ensures var E := p.ends[e]; E.operation in p.bufs && |p.bufs[E.operation].moved| <= p.bufs[E.operation].length
    ensures var E := p.ends[e]; E.failure == Ok ==> |p.bufs[E.operation].moved| == E.state.progress
    ensures var E := p.ends[e]; E.ty.future && E.initialized ==> p.bufs[E.operation].length == 1
  {
    EndFacts(p, e);
    assert ContentOk(p.ends[e], p.bufs[p.ends[e].operation], p.cells[p.bufs[p.ends[e].operation].values]);
    hide PairInv, Closed, FlowInv, ContentInv, HostUnique, LogOk;
  }

  lemma {:induction false} DeliverAdvances(w: World, e: Ref, cleanup: Status)
    requires Inv(w) && e in w.p.ends && w.p.ends[e].initialized
    ensures Advance(w.p, Deliver(w, e, cleanup).0.p)
  {
    hide PairInv, Conserved, HomeInv, OwnInv, Advance, Ages, Delivered, EndOk, OperationOk, LinkOk;
    PairClosed(w.p);
    EndFacts(w.p, e);
    SameAdvance(w.p);
    var E := w.p.ends[e];
    if E.state.pending && Delivered(E.state).Some? {
      if E.operation == NULL {
        ReleaseAges(E, []);
      } else {
        MovedCount(w.p, e);
        ReleaseAges(E, w.p.bufs[E.operation].moved);
      }
      OneAge(w.p, Release(w.p, e, Delivered(E.state).value.state), e);
    }
  }

  lemma {:induction false} CancelAdvances(w: World, e: Ref)
    requires Inv(w) && e in w.p.ends
    ensures Advance(w.p, Cancel(w, e).0.p)
  {
    hide PairInv, Conserved, HomeInv, OwnersInv, EachOwnOk, Advance, Ages, CancelRequested;
    SameAdvance(w.p);
    if Cancel(w, e).1 == Ok {
      CancelAges(w.p.ends[e]);
      OneAge(w.p, Cancel(w, e).0.p, e);
    }
  }

  lemma {:induction false} CancelAges(E: End)
    requires CancelRequested(E.state, false).Some?
    ensures Ages(E, CancelledEnd(E))
  {
  }

  lemma {:induction false} CloseAges(E: End)
    ensures Ages(E, ClosedEnd(E))
    ensures DroppedByPeer(E.state).Some? ==> Ages(E, DroppedEnd(E))
  {
  }

  lemma {:induction false} ClosePairsAdvances(p: Pairs, e: Ref)
    requires Closed(p) && e in p.ends && p.ends[e].peer != e
    ensures Advance(p, ClosePairs(p, e))
  {
    hide Ages, DroppedByPeer;
    CloseAges(p.ends[e]);
    if p.ends[e].peer != NULL {
      CloseAges(p.ends[p.ends[e].peer]);
    }
    forall x | x in p.ends
      ensures Ages(p.ends[x], p.ends[x])
    {
      AgesSame(p.ends[x]);
    }
  }

  lemma {:induction false} CloseAdvances(w: World, e: Ref)
    requires Inv(w) && e in w.p.ends
    ensures Advance(w.p, Close(w, e).0.p)
  {
    hide PairInv, Conserved, HomeInv, OwnersInv, EachOwnOk, Advance, CloseCheck, ClosePairs, EndOk, OperationOk;
    PairClosed(w.p);
    EndFacts(w.p, e);
    EndNotNull(w.p, e);
    SameAdvance(w.p);
    ClosePairsAdvances(w.p, e);
  }

  lemma {:induction false} EndNotNull(p: Pairs, e: Ref)
    requires PairInv(p) && e in p.ends
    ensures e != NULL
  {
  }

  lemma {:induction false} SpliceAges(E: End, peer: Ref, s: EndpointState, done: bool, status: Status)
    requires E.failure == Ok && (s.phase.Idle? ==> E.state.phase.Idle?)
    ensures Ages(E, SplicedEnd(E, peer, s, done))
    ensures !E.state.phase.Idle? ==> Ages(E, Fail(E.(peer := peer), status))
  {
  }

  lemma {:induction false} SplicePhases(p: Pairs, r: Ref, w: Ref, plan: Splice)
    requires Closed(p) && r in p.ends && w in p.ends && SplicePlan(p, r, w) == Some(plan)
    ensures (plan.read.phase.Idle? ==> p.ends[r].state.phase.Idle?)
    ensures (plan.write.phase.Idle? ==> p.ends[w].state.phase.Idle?)
    ensures plan.count != 0 ==> !p.ends[r].state.phase.Idle? && !p.ends[w].state.phase.Idle?
  {
  }

  lemma {:induction false} SpliceLog(p: Pairs, s: Ref, d: Ref, plan: Splice, f: Faults)
    requires CanSplice(p, s, d, plan)
    ensures var q := SplicePairs(p, s, d, plan, f).0;
            && p.log <= q.log && |q.log| <= |p.log| + 1
            && (|q.log| == |p.log| + 1 ==>
                  q.log[|p.log|].writer == p.ends[s].peer && q.log[|p.log|].reader == p.ends[d].peer)
  {
    if plan.count != 0 {
      TransferLog(Join(p, s, d, p.ends[d].peer, p.ends[s].peer), p.ends[d].peer, p.ends[s].peer, plan.count, f);
    }
    hide TransferBuffers, CanTransfer;
  }

  lemma {:induction false} FourAge(p: Pairs, q: Pairs, s: Ref, d: Ref, r: Ref, R: End, w: Ref, W: End)
    requires FourEnds(p, s, d, r, w) && FourChanged(p, q, s, d, r, R, w, W) && p.log <= q.log
    requires Ages(p.ends[r], R) && Ages(p.ends[w], W)
    ensures Advance(p, q)
  {
    hide Ages;
    CloseAges(p.ends[s]);
    CloseAges(p.ends[d]);
    forall x | x in p.ends
      ensures Ages(p.ends[x], q.ends[x])
    {
      AgesSame(p.ends[x]);
    }
  }

  lemma {:induction false} SplicePairsAdvances(p: Pairs, s: Ref, d: Ref, plan: Splice, f: Faults)
    requires CanForward(p, s, d) && p.ends[d].peer in p.ends && p.ends[s].peer in p.ends && Closed(p)
    requires SplicePlan(p, p.ends[d].peer, p.ends[s].peer) == Some(plan) && CanSplice(p, s, d, plan)
    ensures Advance(p, SplicePairs(p, s, d, plan, f).0)
  {
    var r, w := p.ends[d].peer, p.ends[s].peer;
    ForwardFour(p, s, d);
    ForwardJoinable(p, s, d);
    assert p.ends[r].failure == Ok && p.ends[w].failure == Ok;
    hide PairInv, EndOk, Joinable, SplicePairs, CanSplice, SplicePlan, Fail, CanForward, Transferable, SplicedEnd, Ages;
    hide FourChanged, FourEnds, Advance, Closed;
    SplicePlanOf(p, s, d, plan);
    FourEndsKnown(p, s, d, r, w);
    SplicePairsEnds(p, s, d, r, w, plan, f);
    SplicePhases(p, r, w, plan);
    SpliceLog(p, s, d, plan, f);
    var (q, status) := SplicePairs(p, s, d, plan, f);
    SpliceAges(p.ends[r], w, plan.read, plan.readDone, status);
    SpliceAges(p.ends[w], r, plan.write, plan.writeDone, status);
    if status == Ok {
      FourAge(p, q, s, d, r, SplicedEnd(p.ends[r], w, plan.read, plan.readDone), w,
        SplicedEnd(p.ends[w], r, plan.write, plan.writeDone));
    } else {
      SpliceFailedCount(p, s, d, plan, f);
      FourAge(p, q, s, d, r, Fail(p.ends[r].(peer := w), status), w, Fail(p.ends[w].(peer := r), status));
    }
  }

  lemma {:induction false} FourEndsKnown(p: Pairs, s: Ref, d: Ref, r: Ref, w: Ref)
    requires FourEnds(p, s, d, r, w)
    ensures s in p.ends && d in p.ends && r in p.ends && w in p.ends
  {
  }

  lemma {:induction false} SpliceFailedCount(p: Pairs, s: Ref, d: Ref, plan: Splice, f: Faults)
    requires CanSplice(p, s, d, plan) && SplicePairs(p, s, d, plan, f).1 != Ok
    ensures plan.count != 0
  {
    hide TransferBuffers, CanTransfer;
  }

  lemma {:induction false} SplicedAdvances(w: World, s: Ref, d: Ref, f: Faults)
    requires Inv(w) && s in w.p.ends && d in w.p.ends && ForwardCheck(w, s, d) == Ok && !NothingToJoin(w.p, s, d)
    ensures Advance(w.p, Spliced(w, s, d, f).0.p)
  {
    hide PairInv, Conserved, HomeInv, OwnersInv, EachOwnOk, Advance, ForwardCheck, NothingToJoin, SplicePairs;
    hide SplicePlan, CanSplice, CanForward;
    PairClosed(w.p);
    ForwardChecked(w, s, d);
    SplicedFits(w, s, d, f);
    SplicePairsAdvances(w.p, s, d, SplicePlan(w.p, w.p.ends[d].peer, w.p.ends[s].peer).value, f);
  }

  lemma {:induction false} AdvanceTrans(p: Pairs, q: Pairs, r: Pairs)
    requires Advance(p, q) && Advance(q, r)
    ensures Advance(p, r)
  {
    hide FutureOne;
    forall x | x in p.ends
      ensures Ages(p.ends[x], r.ends[x])
    {
      assert Ages(p.ends[x], q.ends[x]) && Ages(q.ends[x], r.ends[x]);
    }
  }

  lemma {:induction false} ForwardAdvances(w: World, s: Ref, d: Ref, f: Faults)
    requires Inv(w) && s in w.p.ends && d in w.p.ends
    ensures Advance(w.p, Forward(w, s, d, f).0.p)
  {
    hide PairInv, Conserved, HomeInv, OwnersInv, EachOwnOk, ForwardCheck, NothingToJoin, Close, Spliced, SpliceRefused;
    hide Advance;
    PairClosed(w.p);
    OwnFacts(w);
    SameAdvance(w.p);
    if ForwardCheck(w, s, d) == Ok {
      if NothingToJoin(w.p, s, d) {
        CloseKeepsAll(w, s);
        var v := Close(w, s).0;
        PairClosed(v.p);
        OwnFacts(v);
        CloseAdvances(w, s);
        CloseAdvances(v, d);
        AdvanceTrans(w.p, v.p, Close(v, d).0.p);
      } else {
        SplicedAdvances(w, s, d, f);
      }
    }
  }

  lemma {:induction false} OpenAges(readable: bool, ty: EndType, peer: Ref)
    ensures Ages(BLANK, Opened(readable, ty, peer))
  {
  }

  lemma {:induction false} OpenPairsAdvances(p: Pairs, r: Ref, x: Ref, ty: EndType)
    requires r in p.ends && x in p.ends && r != x && p.ends[r] == BLANK && p.ends[x] == BLANK
    ensures Advance(p, OpenPairs(p, r, x, ty))
  {
    hide Ages, Opened;
    OpenAges(true, ty, x);
    OpenAges(false, ty, r);
    forall y | y in p.ends
      ensures Ages(p.ends[y], p.ends[y])
    {
      AgesSame(p.ends[y]);
    }
  }

  lemma {:induction false} OpenAdvances(w: World, r: Ref, x: Ref, ty: EndType, tr: Ref, tx: Ref, tracked: bool)
    requires CanOpen(w, r, x, tr, tx)
    ensures Advance(w.p, Open(w, r, x, ty, tr, tx, tracked).0.p)
  {
    hide PairInv, Conserved, HomeInv, OwnInv, Advance, Register, Unregister, OpenPairs, OpenHomes;
    SameAdvance(w.p);
    if Open(w, r, x, ty, tr, tx, tracked).1 == Ok {
      UnusedIsBlank(w.p, r);
      UnusedIsBlank(w.p, x);
      OpenPairsAdvances(w.p, r, x, ty);
    }
  }

  lemma {:induction false} WaitEndPairs(w: World, e: Ref, cleanup: Status)
    requires Inv(w) && e in w.p.ends
    ensures Closed(w.p) && e in w.o.owns
    ensures WaitEnd(w, e, cleanup).0.p ==
              if w.o.owns[e].table == NULL || !w.o.owns[e].syncWaiter then w.p else Deliver(w, e, cleanup).0.p
  {
    PairClosed(w.p);
    hide PairInv, Conserved, HomeInv, OwnersInv, EachOwnOk, Deliver, Waiting;
  }

  lemma {:induction false} WaitEndAdvances(w: World, e: Ref, cleanup: Status)
    requires Inv(w) && e in w.p.ends
    ensures Advance(w.p, WaitEnd(w, e, cleanup).0.p)
  {
    hide Inv, Advance, Deliver, WaitEnd, Frozen;
    SameAdvance(w.p);
    WaitEndPairs(w, e, cleanup);
    OwnShape(w, e);
    if w.o.owns[e].table != NULL {
      DeliverAdvances(w, e, cleanup);
    }
  }

  lemma {:induction false} TakeAdvances(w: World, e: Ref, cleanup: Status)
    requires Inv(w) && e in w.p.ends
    ensures Advance(w.p, Take(w, e, cleanup).0.p)
  {
    hide PairInv, Conserved, HomeInv, OwnersInv, EachOwnOk, Advance, Deliver;
    SameAdvance(w.p);
    PairClosed(w.p);
    if Live(w.p.ends[e], w.o.owns[e]) {
      DeliverAdvances(w, e, cleanup);
    }
  }

  lemma {:induction false} ReleaseValueAdvances(w: World, v: Ref)
    requires Inv(w) && v in w.o.owners
    ensures Advance(w.p, ReleaseValue(w, v).0.p)
  {
    hide PairInv, Conserved, HomeInv, OwnersInv, EachOwnOk, Advance, Unbind, Close, Frozen;
    SameAdvance(w.p);
    var e := w.o.owners[v].endpoint;
    if e != NULL {
      ValueOwns(w, v);
      if w.o.owns[e].lowerScope == NULL {
        UnbindWorld(w, e, v);
        CloseAdvances(w.(o := Unbind(w.o, e, v)), e);
      }
    }
  }

  lemma {:induction false} OwnerStepsAdvance(w: World, s: Step)
    requires Inv(w) && Known(w, s) && (s.OnTable? || s.OnValue? || s.OnCodec?)
    requires !(s.OnTable? && s.table.WaitEndStep?) && !(s.OnValue? && s.value.ReleaseValueStep?)
    ensures Do(w, s).0.p == w.p
  {
    hide Inv, Waiting, Publish, Unregister, Bind, Unbind, SetFlags, Reserve, CommitAll, RollbackAll, Preflight;
    hide MovableReadable, HasRoom;
    if s.OnCodec? && s.codec.LiftStep? {
      LiftPairs(w, s.codec.c, s.codec.h, s.codec.ty, s.codec.v);
      hide Lift;
    }
  }

  lemma {:induction false} LiftPairs(w: World, c: Ref, h: nat, ty: EndType, v: Ref)
    requires Inv(w) && c in w.o.codecs && v !in w.o.owners
    ensures Lift(w, c, h, ty, v).0.p == w.p
  {
    hide PairInv, Conserved, HomeInv, OwnersInv, EachOwnOk, Bind, Unregister;
    CodecTable(w, c);
  }

  /** No step takes back a failure, a close, a delivered element or a transfer. */
  lemma {:induction false} DoAdvances(w: World, s: Step)
    requires Inv(w) && Known(w, s)
    ensures Advance(w.p, Do(w, s).0.p)
  {
    if s.OnEnd? && s.end.TakeStep? {
      TakeAdvances(w, s.end.e, s.end.cleanup);
    } else if s.OnEnd? && s.end.CancelStep? {
      CancelAdvances(w, s.end.e);
    } else if s.OnEnd? {
      CloseAdvances(w, s.end.e);
    } else if s.OnTable? && s.table.WaitEndStep? {
      WaitEndAdvances(w, s.table.e, s.table.cleanup);
    } else if s.OnValue? && s.value.ReleaseValueStep? {
      ReleaseValueAdvances(w, s.value.v);
    } else if s.OnPair? {
      PairStepAdvances(w, s.pair);
    } else if s.Env? {
      EnvAdvances(w.p, s.q);
    } else {
      OwnerStepsAdvance(w, s);
      SameAdvance(w.p);
    }
    hide Inv, Advance, Take, Cancel, Close, WaitEnd, ReleaseValue, DoPair;
  }

  lemma {:induction false} EnvAdvances(p: Pairs, q: Pairs)
    requires EnvOk(p, q)
    ensures Advance(p, q)
  {
    hide Ages, Closed;
    forall y | y in p.ends
      ensures Ages(p.ends[y], p.ends[y])
    {
      AgesSame(p.ends[y]);
    }
  }

  lemma {:induction false} PairStepAdvances(w: World, s: PairStep)
    requires Inv(w) && Known(w, OnPair(s))
    ensures Advance(w.p, DoPair(w, s).0.p)
  {
    hide Inv, Advance, Open, Submit, Forward, Duty, CanOpen;
    match s
    case OpenStep(r, x, ty, tr, tx, tracked) => OpenAdvances(w, r, x, ty, tr, tx, tracked);
    case SubmitStep(e, b, pinned, guestCheck, f) => SubmitAdvances(w, e, b, pinned, guestCheck, f);
    case ForwardStep(s, d, f) => ForwardAdvances(w, s, d, f);
  }
}
