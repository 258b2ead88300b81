/**
  What the code of an event tells its receiver, from the links of the end and
  from what was asked of it: 0 for a completed operation, 1 for a peer that is
  gone, 2 for a cancelled operation, with the number of elements above the low
  four bits.
 */
module EndpointEvents {
  import opened Common
  import opened AsyncState
  import opened EndpointModel
  import opened EndpointInvariant
  import opened EndpointFlow
  import opened EndpointOwnership
  import opened EndpointTransactions
  import opened EndpointHomes
  import opened EndpointSteps
  import opened EndpointMoves
  import opened EndpointRuns
  import opened EndpointProgress
  import opened EndpointTheorems
  import opened EndpointPromises

  /** The end is a future whose operation has moved its one element. */
  ghost predicate Resolved(p: Pairs, e: Ref)
    requires Closed(p) && e in p.ends
  {
    p.ends[e].ty.future && |MovedBy(p, e)| == 1
  }

  /** The code an event of `e` must carry, given whether a cancellation stands. */
  ghost predicate Code(p: Pairs, e: Ref, cancelling: bool, payload: nat)
    requires Closed(p) && e in p.ends
  {
    && (payload % 16 == 0 <==> Resolved(p, e) || (p.ends[e].peer != NULL && !cancelling))
    && (payload % 16 == 1 <==> !Resolved(p, e) && p.ends[e].peer == NULL)
    && (payload % 16 == 2 <==> !Resolved(p, e) && p.ends[e].peer != NULL && cancelling)
    && payload / 16 == if p.ends[e].ty.future then 0 else |MovedBy(p, e)|
  }

  /** The same of one end, with its progress for what moved. */
  lemma {:induction false} PayloadCode(E: End)
    requires EndOk(E) && E.initialized && !E.closed && Delivered(E.state).Some?
    ensures var payload := Delivered(E.state).value.payload; var resolved := E.ty.future && E.state.progress == 1;
            && (payload % 16 == 0 <==> resolved || (E.peer != NULL && !E.state.phase.Cancelling?))
            && (payload % 16 == 1 <==> !resolved && E.peer == NULL)
            && (payload % 16 == 2 <==> !resolved && E.peer != NULL && E.state.phase.Cancelling?)
            && payload / 16 == if E.ty.future then 0 else E.state.progress
    ensures E.operation == NULL ==> E.state.progress == 0
    ensures var s := Delivered(E.state).value.state; var payload := Delivered(E.state).value.payload;
            && !s.pending && s.peerDropped == E.state.peerDropped
            && s.phase == if payload % 16 == 1 || (E.ty.future && payload % 16 == 0) then Done else Idle
  {
  }

  lemma {:induction false} MovedProgress(w: World, e: Ref)
    requires Inv(w) && e in w.p.ends && w.p.ends[e].failure == Ok
    ensures Closed(w.p) && EndOk(w.p.ends[e])
    ensures w.p.ends[e].operation != NULL ==> |MovedBy(w.p, e)| == w.p.ends[e].state.progress
  {
    PairClosed(w.p);
    EndFacts(w.p, e);
    if w.p.ends[e].operation != NULL {
      MovedCount(w.p, e);
    }
    hide Inv, EndOk, OperationOk, LinkOk, Closed;
  }

  lemma {:induction false} DeliveryCode(p: Pairs, e: Ref)
    requires Closed(p) && e in p.ends && EndOk(p.ends[e]) && Delivered(p.ends[e].state).Some?
    requires p.ends[e].initialized && !p.ends[e].closed
    requires p.ends[e].operation != NULL ==> |MovedBy(p, e)| == p.ends[e].state.progress
    ensures Code(p, e, p.ends[e].state.phase.Cancelling?, Delivered(p.ends[e].state).value.payload)
  {
    PayloadCode(p.ends[e]);
    hide EndOk, Delivered, Closed;
  }

  /** The end a delivery leaves. */
  ghost predicate Rested(p: Pairs, q: Pairs, e: Ref, payload: nat)
    requires e in p.ends
  {
    && e in q.ends && q.ends[e].peer == p.ends[e].peer && !q.ends[e].state.pending
    && q.ends[e].state.phase ==
       if payload % 16 == 1 || (p.ends[e].ty.future && payload % 16 == 0) then Done else Idle
  }

  lemma {:induction false} DeliveryRests(p: Pairs, e: Ref)
    requires Closed(p) && e in p.ends && EndOk(p.ends[e]) && Delivered(p.ends[e].state).Some?
    requires p.ends[e].initialized && !p.ends[e].closed
    ensures var d := Delivered(p.ends[e].state).value; Rested(p, Release(p, e, d.state), e, d.payload)
  {
    PayloadCode(p.ends[e]);
    hide EndOk, Delivered, Closed;
  }

  /** Every delivered event carries the code of what happened to the end: 1 if
      it has no peer and is not a future that has its element, 2 if it is linked
      and its operation was being cancelled, 0 otherwise. After a drop or a
      resolved future the end is done for good; otherwise it is idle again. */
  lemma {:induction false} EventCode(w: World, e: Ref, cleanup: Status)
    requires Inv(w) && e in w.p.ends
    ensures Closed(w.p) && w.p.ends.Keys == w.o.owns.Keys
    ensures var (v, status, payload) := Take(w, e, cleanup);
            status == Ok ==>
              Code(w.p, e, w.p.ends[e].state.phase.Cancelling?, payload) && Rested(w.p, v.p, e, payload)
  {
    PairClosed(w.p);
    OwnFacts(w);
    hide Inv, EndOk, Closed, Delivered, Take, Release, Code, Rested, OwnersInv, OwnOk, PlaceOk;
    if Take(w, e, cleanup).1 == Ok {
      TakeForm(w, e, cleanup);
      MovedProgress(w, e);
      DeliveryCode(w.p, e);
      DeliveryRests(w.p, e);
    }
  }

  /** An event is delivered exactly if the end is held, nobody waits for it
      synchronously, and there is one; otherwise nothing changes, and the status
      tells why. Delivery reports the failure of a failed end. */
  lemma {:induction false} TakeExactly(w: World, e: Ref, cleanup: Status)
    requires Inv(w) && e in w.p.ends
    ensures Closed(w.p) && w.p.ends.Keys == w.o.owns.Keys
    ensures var (v, status, payload) := Take(w, e, cleanup); var E, O := w.p.ends[e], w.o.owns[e];
            if !E.initialized || E.closed || O.valueOwner != NULL then v == w && status == InvalidArgument
            else if O.syncWaiter then v == w && status == Trapped
            else if !E.state.pending then v == w && status == Yielded
            else
              && status == (if E.failure != Ok then E.failure else cleanup)
              && e in v.p.ends && v.p.ends[e].operation == NULL && !v.p.ends[e].state.pending && v.o == w.o
  {
    hide Inv, Closed, EndOk, OwnersInv, OwnOk, PlaceOk, Delivered, Release;
    InvFacts(w, e);
    if w.p.ends[e].initialized && !w.p.ends[e].closed && w.p.ends[e].state.pending {
      Deliverable(w.p.ends[e]);
      DeliveryQuiet(w.p.ends[e].state);
      ReleasedState(w.p, e, Delivered(w.p.ends[e].state).value.state);
    }
  }

  lemma {:induction false} InvFacts(w: World, e: Ref)
    requires Inv(w) && e in w.p.ends
    ensures Closed(w.p) && w.p.ends.Keys == w.o.owns.Keys && EndOk(w.p.ends[e])
  {
    PairClosed(w.p);
    OwnFacts(w);
    EndFacts(w.p, e);
  }

  lemma {:induction false} ReleasedState(p: Pairs, e: Ref, s: EndpointState)
    requires Closed(p) && e in p.ends
    ensures var q := Release(p, e, s); e in q.ends && q.ends[e].operation == NULL && q.ends[e].state == s
  {
  }

  lemma {:induction false} DeliveryQuiet(s: EndpointState)
    requires Delivered(s).Some?
    ensures !Delivered(s).value.state.pending
  {
  }

  // ---------------------------------------------------------------- over runs

  /** Cancelling an operation and taking its event. If the peer is still there,
      the event says cancelled, whatever the operation had moved before, unless
      it is a future that has its element; a peer that is gone takes
      precedence. */
  lemma {:induction false} CancelThenTake(w: World, e: Ref, cleanup: Status)
    requires Inv(w) && e in w.p.ends && w.p.ends.Keys == w.o.owns.Keys && Cancel(w, e).1 == Ok && cleanup == Ok
    ensures Closed(w.p) && Inv(Cancel(w, e).0) && e in Cancel(w, e).0.p.ends && Closed(Cancel(w, e).0.p)
    ensures Cancel(w, e).0.p.ends.Keys == Cancel(w, e).0.o.owns.Keys
    ensures var (v, status, payload) := Take(Cancel(w, e).0, e, cleanup);
            && status == Ok && Code(w.p, e, true, payload)
            && (w.p.ends[e].peer != NULL && !w.p.ends[e].ty.future ==> payload == 2 + 16 * |MovedBy(w.p, e)|)
  {
    hide Inv, Closed, EndOk, Take, Cancel, Code, Rested;
    PairsClosed(w);
    CancelKeepsAll(w, e);
    CancelledFacts(w, e);
    var c := Cancel(w, e).0;
    EventCode(c, e, cleanup);
    TakeNow(c, e, cleanup);
    SameCode(w.p, c.p, e, Take(c, e, cleanup).2);
  }

  lemma {:induction false} PairsClosed(w: World)
    requires Inv(w)
    ensures Closed(w.p)
  {
    PairClosed(w.p);
  }

  /** The code depends on the links and the buffer of the end only. */
  lemma {:induction false} SameCode(p: Pairs, q: Pairs, e: Ref, payload: nat)
    requires Closed(p) && Closed(q) && e in p.ends && e in q.ends && Code(q, e, true, payload)
    requires q.ends[e].peer == p.ends[e].peer && q.ends[e].ty == p.ends[e].ty
    requires q.ends[e].operation == p.ends[e].operation && q.bufs == p.bufs
    ensures Code(p, e, true, payload)
    ensures p.ends[e].peer != NULL && !p.ends[e].ty.future ==> payload == 2 + 16 * |MovedBy(p, e)|
  {
    hide Closed;
  }

  ghost predicate CancelledForm(w: World, c: World, e: Ref)
    requires e in w.p.ends
  {
    && e in c.p.ends && e in c.o.owns && Live(c.p.ends[e], c.o.owns[e]) && !c.o.owns[e].syncWaiter
    && c.p.ends[e].failure == Ok && c.p.ends[e].state.pending && c.p.ends[e].state.phase.Cancelling?
    && c.p.ends[e].peer == w.p.ends[e].peer && c.p.ends[e].ty == w.p.ends[e].ty
    && c.p.ends[e].operation == w.p.ends[e].operation && c.p.bufs == w.p.bufs
  }

  lemma {:induction false} CancelledFacts(w: World, e: Ref)
    requires Inv(w) && e in w.p.ends && w.p.ends.Keys == w.o.owns.Keys && Cancel(w, e).1 == Ok
    ensures CancelledForm(w, Cancel(w, e).0, e)
  {
    hide PairInv, Conserved, HomeInv, OwnInv, Closed, LinkOk, OperationOk;
    EndFacts(w.p, e);
  }

  /** A live end with an event has one it can deliver. */
  lemma {:induction false} Deliverable(E: End)
    requires EndOk(E) && E.initialized && E.state.pending
    ensures Delivered(E.state).Some?
  {
  }

  /** An end with an event that no synchronous waiter claims can take it. */
  lemma {:induction false} TakeNow(w: World, e: Ref, cleanup: Status)
    requires Inv(w) && e in w.p.ends && Closed(w.p) && w.p.ends.Keys == w.o.owns.Keys
    requires Live(w.p.ends[e], w.o.owns[e]) && !w.o.owns[e].syncWaiter && w.p.ends[e].state.pending
    ensures Take(w, e, cleanup).1 == if w.p.ends[e].failure != Ok then w.p.ends[e].failure else cleanup
  {
    hide PairInv, Conserved, HomeInv, OwnInv, Closed, Release, Take, EndOk, Delivered;
    EndFacts(w.p, e);
    Deliverable(w.p.ends[e]);
    TakeForm(w, e, cleanup);
  }

  ghost predicate DroppedForm(w: World, c: World, e: Ref)
    requires e in w.p.ends && e in w.o.owns
  {
    && e in c.p.ends && e in c.o.owns && c.o.owns[e] == w.o.owns[e]
    && c.p.ends[e].initialized && !c.p.ends[e].closed && c.p.ends[e].failure == w.p.ends[e].failure
    && c.p.ends[e].peer == NULL && c.p.ends[e].ty == w.p.ends[e].ty && c.p.ends[e].state.peerDropped
    && (!w.p.ends[e].state.phase.Done? ==> c.p.ends[e].state.pending)
    && c.p.ends[e].operation == w.p.ends[e].operation && c.p.bufs == w.p.bufs
  }

  lemma {:induction false} DroppedFacts(w: World, x: Ref, e: Ref)
    requires Inv(w) && x in w.p.ends && e in w.p.ends && Closed(w.p) && w.p.ends.Keys == w.o.owns.Keys
    requires w.p.ends[e].peer == x && Close(w, x).1 == Ok
    ensures DroppedForm(w, Close(w, x).0, e)
  {
    hide PairInv, Conserved, HomeInv, OwnInv, OperationOk, EndOk, Note, Registered;
    EndFacts(w.p, e);
  }

  /** Closing the peer of an end and taking the event this causes: it says
      dropped, with whatever the operation had moved before, unless the end is a
      future that has its element. */
  lemma {:induction false} PeerClosedThenTake(w: World, x: Ref, e: Ref)
    requires Inv(w) && x in w.p.ends && e in w.p.ends && Closed(w.p) && w.p.ends.Keys == w.o.owns.Keys
    requires w.p.ends[e].peer == x && Close(w, x).1 == Ok && !w.p.ends[e].state.phase.Done?
    requires w.o.owns[e].valueOwner == NULL && !w.o.owns[e].syncWaiter && w.p.ends[e].failure == Ok
    ensures Inv(Close(w, x).0) && e in Close(w, x).0.p.ends && Closed(Close(w, x).0.p)
    ensures Close(w, x).0.p.ends.Keys == Close(w, x).0.o.owns.Keys
    ensures var (v, status, payload) := Take(Close(w, x).0, e, Ok);
            && status == Ok && Rested(Close(w, x).0.p, v.p, e, payload)
            && payload == if Resolved(w.p, e) then 0
                          else if w.p.ends[e].ty.future then 1 else 1 + 16 * |MovedBy(w.p, e)|
  {
    hide Inv, Closed, EndOk, Take, Close, Code, Rested;
    CloseKeepsAll(w, x);
    DroppedFacts(w, x, e);
    var c := Close(w, x).0;
    EventCode(c, e, Ok);
    TakeNow(c, e, Ok);
    DroppedCode(w.p, c.p, e, c.p.ends[e].state.phase.Cancelling?, Take(c, e, Ok).2);
  }

  lemma {:induction false} DroppedCode(p: Pairs, q: Pairs, e: Ref, cancelling: bool, payload: nat)
    requires Closed(p) && Closed(q) && e in p.ends && e in q.ends && Code(q, e, cancelling, payload)
    requires q.ends[e].peer == NULL && q.ends[e].ty == p.ends[e].ty
    requires q.ends[e].operation == p.ends[e].operation && q.bufs == p.bufs
    ensures payload == if Resolved(p, e) then 0 else if p.ends[e].ty.future then 1 else 1 + 16 * |MovedBy(p, e)|
  {
    hide Closed;
  }
}
