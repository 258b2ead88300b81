/**
  What callers of single operations can rely on in every reachable state:
  events report exactly what moved, failed pairs stay contained, and the
  consistency traps are unreachable.
 */
module EndpointPromises {
  import opened Common
  import opened AsyncState
  import opened EndpointModel
  import opened EndpointInvariant
  import opened EndpointFlow
  import opened EndpointOwnership
  import opened EndpointTransactions
  import opened EndpointHomes
  import opened EndpointSteps
  import opened EndpointMoves
  import opened EndpointRuns
  import opened EndpointProgress
  import opened EndpointTheorems

  // ---------------------------------------------------------------- events

  /** Of a state with something to deliver: the packed count is the progress. */
  lemma {:induction false} PayloadCount(E: End)
    requires EndOk(E) && E.initialized && Delivered(E.state).Some?
    ensures ReportedCount(E.ty.future, Delivered(E.state).value.payload) == E.state.progress
    ensures E.operation == NULL ==> E.state.progress == 0
  {
  }

  /** What the pending operation of `e` has moved. */
  ghost function MovedBy(p: Pairs, e: Ref): seq<Cell>
    requires Closed(p) && e in p.ends
  {
    if p.ends[e].operation == NULL then [] else p.bufs[p.ends[e].operation].moved
  }

  /** What releasing the buffer of `e` leaves. */
  lemma {:induction false} ReleaseForm(p: Pairs, e: Ref, s: EndpointState)
    requires Closed(p) && e in p.ends
    ensures var q := Release(p, e, s);
            && e in q.ends && q.ends[e].hist == p.ends[e].hist + MovedBy(p, e) && q.ends[e].operation == NULL
            && (p.ends[e].operation != NULL ==> p.ends[e].operation in q.bufs && !q.bufs[p.ends[e].operation].leased)
  {
  }

  /** A delivery releases the buffer, and reports the failure of a failed end. */
  lemma {:induction false} TakeForm(w: World, e: Ref, cleanup: Status)
    requires Closed(w.p) && e in w.p.ends && w.p.ends.Keys == w.o.owns.Keys
    ensures var (v, status, payload) := Take(w, e, cleanup); var E := w.p.ends[e];
            && (status == Ok
                 || (Live(E, w.o.owns[e]) && !w.o.owns[e].syncWaiter && E.state.pending && Delivered(E.state).Some?) ==>
                  && Live(E, w.o.owns[e]) && Delivered(E.state).Some?
                  && v.p == Release(w.p, e, Delivered(E.state).value.state)
                  && status == (if E.failure != Ok then E.failure else cleanup)
                       && payload == Delivered(E.state).value.payload)
  {
    hide Closed, Release, Delivered;
  }

  /** A successful delivery reports exactly the number of elements that its
      operation moved, adds exactly those to what `e` has delivered, and gives
      the buffer back. */
  lemma {:induction false} EventReportsProgress(w: World, e: Ref, cleanup: Status)
    requires Inv(w) && e in w.p.ends
    ensures Closed(w.p)
    ensures var (v, status, payload) := Take(w, e, cleanup);
            status == Ok ==>
              && e in v.p.ends && v.p.ends[e].hist == w.p.ends[e].hist + MovedBy(w.p, e)
              && ReportedCount(w.p.ends[e].ty.future, payload) == |MovedBy(w.p, e)|
              && v.p.ends[e].operation == NULL
              && (w.p.ends[e].operation != NULL ==>
                   w.p.ends[e].operation in v.p.bufs && !v.p.bufs[w.p.ends[e].operation].leased)
  {
    PairClosed(w.p);
    OwnFacts(w);
    EndFacts(w.p, e);
    if w.p.ends[e].operation != NULL {
      MovedCount(w.p, e);
    }
    hide Inv, EndOk, OperationOk, LinkOk, Closed, Delivered, ReportedCount, Take, Release;
    if Take(w, e, cleanup).1 == Ok {
      TakeForm(w, e, cleanup);
      PayloadCount(w.p.ends[e]);
      ReleaseForm(w.p, e, Delivered(w.p.ends[e].state).value.state);
    }
  }

  // ---------------------------------------------------------------- failures

  /** Both ends of a failed pair carry the same failure and offer nothing. */
  lemma {:induction false} FailedPair(w: World, e: Ref)
    requires Inv(w) && e in w.p.ends && w.p.ends[e].failure != Ok
    ensures w.p.ends[e].available == NULL && w.o.owns[e].valueOwner == NULL
    ensures w.p.ends[e].peer != NULL ==>
              && w.p.ends[e].peer in w.p.ends && w.p.ends[w.p.ends[e].peer].failure == w.p.ends[e].failure
              && w.p.ends[w.p.ends[e].peer].available == NULL
  {
    EndFacts(w.p, e);
    OwnShape(w, e);
    if w.p.ends[e].peer != NULL {
      EndFacts(w.p, w.p.ends[e].peer);
    }
    hide PairInv, Conserved, HomeInv, OwnInv, OperationOk;
  }

  /** A failed end has its buffer returned by the next delivery, which reports the failure. */
  lemma {:induction false} FailureDelivered(w: World, e: Ref, cleanup: Status)
    requires Inv(w) && e in w.p.ends && w.p.ends[e].failure != Ok && w.p.ends[e].operation != NULL
    requires Live(w.p.ends[e], w.o.owns[e]) && !w.o.owns[e].syncWaiter
    ensures var (v, status, payload) := Take(w, e, cleanup);
            && status == w.p.ends[e].failure && e in v.p.ends && v.p.ends[e].operation == NULL
            && w.p.ends[e].operation in v.p.bufs && !v.p.bufs[w.p.ends[e].operation].leased
  {
    PairClosed(w.p);
    OwnFacts(w);
    EndFacts(w.p, e);
    assert w.p.ends[e].state.pending;
    DeliveryExists(w.p.ends[e]);
    hide Inv, EndOk, OperationOk, LinkOk, Closed, Delivered, Take, Release;
    TakeForm(w, e, cleanup);
    ReleaseForm(w.p, e, Delivered(w.p.ends[e].state).value.state);
  }

  /** From then on the end can only be closed. */
  lemma {:induction false} FailureContained(w: World, e: Ref, b: Ref, pinned: bool, guestCheck: Status, t: Ref, v: Ref,
      x: Ref)
    requires Inv(w) && e in w.p.ends && w.p.ends[e].failure != Ok && b in w.p.bufs && t in w.o.tables
    requires v !in w.o.owners && x in w.p.ends
    ensures Closed(w.p) && w.p.ends.Keys == w.o.owns.Keys
    ensures SubmitCheck(w, e, b, pinned, guestCheck) == w.p.ends[e].failure
    ensures Attach(w, e, t) == (w, Trapped) && Detach(w, e) == (w, Trapped) && IntoValue(w, e, v) == (w, Trapped)
    ensures ForwardCheck(w, e, x) == Trapped && ForwardCheck(w, x, e) == Trapped
    ensures CloseCheck(w, e) == Ok <==>
            w.p.ends[e].initialized && !w.p.ends[e].closed && w.p.ends[e].operation == NULL && !w.o.owns[e].syncWaiter
  {
    PairClosed(w.p);
    OwnFacts(w);
    hide PairInv, Conserved, HomeInv, OwnersInv, EachOwnOk, SubmitPlan, ValidateBuffer, Overlaps, Registered;
    hide CloseCheck;
    FailedPair(w, e);
    CloseExactly(w, e);
  }

  /** A failure is for ever: every later state of the run still has it, and a
      buffer that was returned is never taken again. */
  lemma {:induction false} FailureIsFinal(w: World, steps: seq<Step>, e: Ref)
    requires Inv(w) && After(w, steps).Some? && e in w.p.ends && w.p.ends[e].failure != Ok
    ensures var v := After(w, steps).value;
            && e in v.p.ends && v.p.ends[e].failure == w.p.ends[e].failure
            && (w.p.ends[e].operation == NULL ==> v.p.ends[e].operation == NULL)
            && w.p.ends[e].hist <= v.p.ends[e].hist
  {
    RunAdvances(w, steps);
    hide Inv, Known, Do, After, FutureOne;
    assert Ages(w.p.ends[e], After(w, steps).value.p.ends[e]);
  }

  // ---------------------------------------------------------------- traps

  /** The two rules that `submit` checks against the peer's waiting buffer. */
  ghost predicate BufferConflict(w: World, e: Ref, b: Ref)
    requires Closed(w.p) && e in w.p.ends && b in w.p.bufs && w.p.ends.Keys == w.o.owns.Keys
  {
    var E, v := w.p.ends[e], w.p.bufs[b];
    && E.peer != NULL && w.p.ends[E.peer].available != NULL
    && var other := w.p.bufs[w.p.ends[E.peer].available];
    && (|| (E.ty.hasPayload && Overlaps(v, other))
        || (v.length != 0 && other.length > other.progress && SameTable(w, e) && !NumericOrUnit(E.ty)))
  }

  /** What `submit` asks of the end and of the buffer. */
  ghost predicate Submissible(w: World, e: Ref, b: Ref, pinned: bool, guestCheck: Status)
    requires Closed(w.p) && e in w.p.ends && b in w.p.bufs && w.p.ends.Keys == w.o.owns.Keys
  {
    && w.p.ends[e].failure == Ok && Live(w.p.ends[e], w.o.owns[e]) && w.p.ends[e].operation == NULL
    && (w.o.owns[e].syncWaiter ==> pinned) && w.p.ends[e].state.phase.Idle?
    && ValidateBuffer(w.p.ends[e], w.p.bufs[b], w.p.cells[w.p.bufs[b].values], guestCheck) == Ok
    && !BufferConflict(w, e, b)
  }

  lemma {:induction false} SubmitCheckForm(w: World, e: Ref, b: Ref, pinned: bool, guestCheck: Status)
    requires Closed(w.p) && e in w.p.ends && b in w.p.bufs && w.p.ends.Keys == w.o.owns.Keys
    ensures SubmitCheck(w, e, b, pinned, guestCheck) == Ok <==>
              Submissible(w, e, b, pinned, guestCheck) && SubmitPlan(w.p, e, b).Some?
  {
    hide SubmitPlan, ValidateBuffer, Overlaps;
  }

  /** Exactly when a buffer is admitted: the consistency traps never fire. */
  lemma {:induction false} SubmitExactly(w: World, e: Ref, b: Ref, pinned: bool, guestCheck: Status)
    requires Inv(w) && e in w.p.ends && b in w.p.bufs
    ensures Closed(w.p) && w.p.ends.Keys == w.o.owns.Keys
    ensures SubmitCheck(w, e, b, pinned, guestCheck) == Ok <==> Submissible(w, e, b, pinned, guestCheck)
  {
    PairClosed(w.p);
    OwnFacts(w);
    PlanNeverFails(w, e, b, guestCheck);
    SubmitCheckForm(w, e, b, pinned, guestCheck);
    hide Inv, SubmitPlan, ValidateBuffer, SubmitCheck, BufferConflict;
  }

  lemma {:induction false} PlanNeverFails(w: World, e: Ref, b: Ref, guestCheck: Status)
    requires Inv(w) && e in w.p.ends && b in w.p.bufs && Closed(w.p) && w.p.ends.Keys == w.o.owns.Keys
    ensures w.p.ends[e].failure == Ok && Live(w.p.ends[e], w.o.owns[e]) && w.p.ends[e].state.phase.Idle? &&
            ValidateBuffer(w.p.ends[e], w.p.bufs[b], w.p.cells[w.p.bufs[b].values], guestCheck) == Ok ==>
              SubmitPlan(w.p, e, b).Some?
  {
    if w.p.ends[e].failure == Ok && Live(w.p.ends[e], w.o.owns[e]) && w.p.ends[e].state.phase.Idle? &&
       ValidateBuffer(w.p.ends[e], w.p.bufs[b], w.p.cells[w.p.bufs[b].values], guestCheck) == Ok {
      ReadyAdmissible(w.p, e, b, guestCheck);
      hide *;
      if w.p.ends[e].peer == NULL {
        UnlinkedPlan(w.p, e, b);
      } else {
        LinkedPlan(w.p, e, b);
      }
    }
  }

  lemma {:induction false} ReadyAdmissible(p: Pairs, e: Ref, b: Ref, guestCheck: Status)
    requires PairInv(p) && e in p.ends && b in p.bufs && Closed(p) && p.ends[e].failure == Ok && p.ends[e].initialized
    requires !p.ends[e].closed
    requires p.ends[e].state.phase.Idle?
    requires ValidateBuffer(p.ends[e], p.bufs[b], p.cells[p.bufs[b].values], guestCheck) == Ok
    ensures Admissible(p, e, b)
  {
    BufFacts(p, b);
    EndFacts(p, e);
    hide PairInv, OperationOk, LinkOk, Closed;
  }

  /** Forwarding two forwardable ends of one type traps only on the two buffer
      rules; otherwise it closes both ends, and its status is that of the copy. */
  lemma {:induction false} ForwardExactly(w: World, s: Ref, d: Ref, f: Faults)
    requires Inv(w) && s in w.p.ends && d in w.p.ends
    ensures Closed(w.p) && w.p.ends.Keys == w.o.owns.Keys
    ensures ForwardCheck(w, s, d) == Ok && NothingToJoin(w.p, s, d) ==> Forward(w, s, d, f).1 == Ok
    ensures ForwardCheck(w, s, d) == Ok && !NothingToJoin(w.p, s, d) ==>
              && w.p.ends[d].peer in w.p.ends && w.p.ends[s].peer in w.p.ends
              && SplicePlan(w.p, w.p.ends[d].peer, w.p.ends[s].peer).Some?
              && (SpliceRefused(w, w.p.ends[d].peer, w.p.ends[s].peer) ==> Forward(w, s, d, f) == (w, Trapped))
              && (!SpliceRefused(w, w.p.ends[d].peer, w.p.ends[s].peer) ==>
                    && Forward(w, s, d, f) == Spliced(w, s, d, f)
                    && (SplicePlan(w.p, w.p.ends[d].peer, w.p.ends[s].peer).value.count == 0 ==>
                         Forward(w, s, d, f).1 == Ok))
  {
    PairClosed(w.p);
    OwnFacts(w);
    hide PairInv, Conserved, HomeInv, OwnersInv, EachOwnOk, ForwardCheck, NothingToJoin, SpliceRefused, Close;
    if ForwardCheck(w, s, d) == Ok {
      if NothingToJoin(w.p, s, d) {
        CloseBoth(w, s, d);
      } else {
        SplicedFits(w, s, d, f);
        var plan := SplicePlan(w.p, w.p.ends[d].peer, w.p.ends[s].peer).value;
        hide SplicePlan;
        if plan.count == 0 {
          SpliceNoCopy(w.p, s, d, plan, f);
        }
        hide SplicePairs, CanSplice, Unregister, Note, Shift, HeldAtRest;
      }
    }
  }

  lemma {:induction false} SpliceNoCopy(p: Pairs, s: Ref, d: Ref, plan: Splice, f: Faults)
    requires CanSplice(p, s, d, plan) && plan.count == 0
    ensures SplicePairs(p, s, d, plan, f).1 == Ok
  {
  }

  lemma {:induction false} CloseBoth(w: World, s: Ref, d: Ref)
    requires Inv(w) && s in w.p.ends && d in w.p.ends && ForwardCheck(w, s, d) == Ok
    ensures Closed(w.p) && Close(w, s).1 == Ok
    ensures var v := Close(w, s).0;
              Inv(v) && d in v.p.ends && Closed(v.p) && v.p.ends.Keys == v.o.owns.Keys && Close(v, d).1 == Ok
  {
    hide PairInv, Conserved, HomeInv, OwnersInv, EachOwnOk, ForwardCheck, CloseCheck, ClosePairs, Unregister, Note;
    hide EndOk, DroppedByPeer;
    ForwardChecked(w, s, d);
    PairClosed(w.p);
    CloseExactly(w, s);
    CloseKeepsAll(w, s);
    var v := Close(w, s).0;
    PairClosed(v.p);
    CloseExactly(v, d);
    CloseOther(w.p, s, d);
    UnregisterOther(w.o, s, d);
  }

  /** Closing one end leaves another without an operation, open as it was. */
  lemma {:induction false} CloseOther(p: Pairs, s: Ref, d: Ref)
    requires Closed(p) && s in p.ends && d in p.ends && s != d
    ensures d in ClosePairs(p, s).ends
    ensures ClosePairs(p, s).ends[d].initialized == p.ends[d].initialized
    ensures ClosePairs(p, s).ends[d].closed == p.ends[d].closed
    ensures ClosePairs(p, s).ends[d].operation == p.ends[d].operation
  {
    hide DroppedByPeer;
  }

  /** After a forward, the two surviving ends are each other's peers. */
  lemma {:induction false} ForwardJoins(w: World, s: Ref, d: Ref, f: Faults)
    requires Inv(w) && s in w.p.ends && d in w.p.ends && ForwardCheck(w, s, d) == Ok && !NothingToJoin(w.p, s, d)
    ensures var v := Spliced(w, s, d, f).0; var r, x := w.p.ends[d].peer, w.p.ends[s].peer;
            && s in v.p.ends && d in v.p.ends && r in v.p.ends && x in v.p.ends
            && v.p.ends[s].closed && v.p.ends[d].closed && v.p.ends[s].peer == NULL && v.p.ends[d].peer == NULL
            && v.p.ends[r].peer == x && v.p.ends[x].peer == r && v.p.ends[r].operation == w.p.ends[r].operation
            && v.p.ends[x].operation == w.p.ends[x].operation
  {
    hide PairInv, Conserved, HomeInv, OwnersInv, EachOwnOk, ForwardCheck, NothingToJoin, SplicePairs, SplicePlan;
    hide CanSplice, CanForward, Unregister, Note, Shift, HeldAtRest;
    PairClosed(w.p);
    ForwardChecked(w, s, d);
    SplicedFits(w, s, d, f);
    var plan := SplicePlan(w.p, w.p.ends[d].peer, w.p.ends[s].peer).value;
    ForwardFour(w.p, s, d);
    SplicePlanOf(w.p, s, d, plan);
    hide Transferable;
    SplicePairsEnds(w.p, s, d, w.p.ends[d].peer, w.p.ends[s].peer, plan, f);
  }

  // ---------------------------------------------------------------- creation pairs

  /** A tracked pair has released its instance exactly if both its ends are
      closed, exactly once, and was never notified after that. */
  lemma {:induction false} ReleasedExactly(w: World, r: Ref)
    requires Inv(w)
    ensures !w.h.stale && NoDuplicates(w.h.released)
    ensures r in w.h.released <==>
            && r in w.h.homes && w.h.homes[r].tracked && w.h.homes[r].pair == r
            && r in w.p.ends && w.p.ends[r].closed && w.h.homes[r].other in w.p.ends
            && w.p.ends[w.h.homes[r].other].closed
  {
    hide PairInv, Conserved, OwnInv, HomesOk, NoDuplicates;
    assert r in w.h.released <==> Finished(w.p.ends, w.h.homes, r);
  }
}
