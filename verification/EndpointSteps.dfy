/**
  The endpoint operations as steps of one state machine. Every step keeps the
  whole invariant.
 */
module EndpointSteps {
  import opened Common
  import opened AsyncState
  import opened EndpointModel
  import opened EndpointInvariant
  import opened EndpointFlow
  import opened EndpointOwnership
  import opened EndpointTransactions
  import opened EndpointHomes

  ghost predicate Inv(w: World) {
    PairInv(w.p) && Conserved(w.p) && OwnInv(w) && HomeInv(w)
  }

  // ---------------------------------------------------------------- what a step leaves alone

  /** Ends that values hold are still at rest. */
  ghost predicate HeldAtRest(owns: map<Ref, Own>, q: map<Ref, End>) {
    forall x :: x in owns && owns[x].valueOwner != NULL ==> x in q && Frozen(q[x])
  }

  /** Nothing is owned that was closed, and other owners stay. */
  ghost predicate OwnsShifted(o: map<Ref, Own>, q: map<Ref, Own>, gone: set<Ref>) {
    && q.Keys == o.Keys
    && (forall x :: x in o && x !in gone ==> q[x].table == o[x].table && q[x].valueOwner == o[x].valueOwner)
    && (forall x :: x in gone ==> x in q && q[x].table == NULL && q[x].valueOwner == NULL)
  }

  lemma {:induction false} ShiftOwns(w: World, v: World, gone: set<Ref>)
    requires OwnInv(w) && Shift(w.p.ends, v.p.ends, gone) && HeldAtRest(w.o.owns, v.p.ends)
    requires OwnsShifted(w.o.owns, v.o.owns, gone) && OwnersInv(v.o)
    ensures OwnInv(v)
  {
    hide OwnersInv, Frozen;
    forall e | e in v.o.owns
      ensures OwnOk(v.p.ends[e], v.o.owns[e])
    {
      assert OwnOk(w.p.ends[e], w.o.owns[e]);
      assert ShiftOne(w.p.ends[e], v.p.ends[e], gone, e in gone);
    }
  }

  /** A step that closes nobody. */
  lemma {:induction false} CalmKeeps(w: World, q: Pairs)
    requires Inv(w) && PairInv(q) && Conserved(q) && Shift(w.p.ends, q.ends, {}) && HeldAtRest(w.o.owns, q.ends)
    ensures Inv(w.(p := q))
  {
    hide PairInv, Conserved, OwnersInv, HomesOk, ReleasedOk, Shift, HeldAtRest;
    ShiftHomes(w.p.ends, q.ends, w.h.homes, {});
    ShiftReleased(w.p.ends, q.ends, w.h, {});
    assert OwnsShifted(w.o.owns, w.o.owns, {});
    assert OwnInv(w.(p := q)) by {
      hide OwnInv, OwnsShifted;
      assert OwnersInv(w.o) by {
        OwnFacts(w);
      }
      ShiftOwns(w, w.(p := q), {});
    }
  }

  lemma {:induction false} OwnFacts(w: World)
    requires OwnInv(w)
    ensures OwnersInv(w.o) && w.p.ends.Keys == w.o.owns.Keys
    ensures forall e :: e in w.p.ends ==> OwnOk(w.p.ends[e], w.o.owns[e]) && PlaceOk(w.o, e)
  {
  }

  predicate SameEnd(E: End, F: End) {
    F.initialized == E.initialized && F.closed == E.closed && F.peer == E.peer && F.readable == E.readable
      && F.ty == E.ty
  }

  /** Only `e` and ends with a pending operation changed, and nobody's links. */
  ghost predicate Nudged(p: Pairs, q: Pairs, e: Ref) {
    && q.ends.Keys == p.ends.Keys
    && (forall x :: x in p.ends ==> SameEnd(p.ends[x], q.ends[x]))
    && (forall x :: x in p.ends && x != e && p.ends[x].operation == NULL ==> q.ends[x] == p.ends[x])
  }

  lemma {:induction false} NudgeKeeps(w: World, q: Pairs, e: Ref)
    requires Inv(w) && e in w.p.ends && PairInv(q) && Conserved(q) && Nudged(w.p, q, e)
    requires w.o.owns[e].valueOwner == NULL
    ensures Inv(w.(p := q))
  {
    hide PairInv, Conserved, HomeInv, OwnersInv;
    assert Shift(w.p.ends, q.ends, {});
    assert HeldAtRest(w.o.owns, q.ends);
    hide *;
    CalmKeeps(w, q);
  }

  // ---------------------------------------------------------------- submit

  lemma {:induction false} TwoNudge(p: Pairs, q: Pairs, e: Ref, E: End, f: Ref, F: End)
    requires TwoEnds(p, q, e, E, f, F) && e != f
    requires SameEnd(p.ends[e], E) && SameEnd(p.ends[f], F)
    requires p.ends[f].operation == NULL ==> F == p.ends[f]
    ensures Nudged(p, q, e)
  {
  }

  /** An end without an operation has nothing a submission could change. */
  lemma {:induction false} PlanLeavesIdle(p: Pairs, e: Ref, b: Ref, plan: Plan)
    requires PairInv(p) && e in p.ends && b in p.bufs && p.ends[e].peer != NULL && SubmitPlan(p, e, b) == Some(plan)
    requires p.ends[p.ends[e].peer].operation == NULL
    ensures AdmittedPeer(p.ends[p.ends[e].peer], plan) == p.ends[p.ends[e].peer] && plan.count == 0
  {
    EndFacts(p, p.ends[e].peer);
    hide LinksOk, OperationsOk, Unshared, LeasesHeld, EndsOk, OperationOk, LinkOk;
  }

  lemma {:induction false} AdmitLinkedNudges(p: Pairs, e: Ref, b: Ref, plan: Plan, f: Faults)
    requires Admissible(p, e, b) && p.ends[e].peer != NULL && SubmitPlan(p, e, b) == Some(plan)
    requires CanAdmit(p, e, b, plan)
    ensures Nudged(p, Admit(p, e, b, plan, f), e)
  {
    LinkedPlan(p, e, b);
    EndFacts(p, e);
    var peer, q := p.ends[e].peer, Admit(p, e, b, plan, f);
    var E, P := p.ends[e], p.ends[peer];
    if P.operation == NULL {
      PlanLeavesIdle(p, e, b, plan);
    }
    hide Closed, LinksOk, OperationsOk, Unshared, LeasesHeld, EndsOk, SubmitPlan, PlanSubmit;
    hide Admit, PutTwo, CopyReady, EndOk, LinkOk, OperationOk, AdmitStatus, CanAdmit, Nudged;
    if plan.count == 0 {
      AdmitWaitingPut(p, e, b, plan, f);
      PutTwoEnds(p, q, e, AdmittedEnd(E, b, plan), peer, AdmittedPeer(P, plan));
      TwoNudge(p, q, e, AdmittedEnd(E, b, plan), peer, AdmittedPeer(P, plan));
    } else {
      AdmitCopyReady(p, e, b, plan);
      var status := AdmitStatus(p, e, b, plan, f);
      if status == Ok {
        AdmitCopiedFacts(p, e, b, plan, f);
        TwoNudge(p, q, e, AdmittedEnd(E, b, plan), peer, AdmittedPeer(P, plan));
      } else {
        AdmitFailedFacts(p, e, b, plan, f);
        TwoNudge(p, q, e, Fail(LentEnd(E, b, plan.count), status), peer, Fail(P, status));
      }
    }
  }

  lemma {:induction false} PutTwoEnds(p: Pairs, q: Pairs, e: Ref, E: End, f: Ref, F: End)
    requires PutTwo(p, q, e, E, f, F)
    ensures TwoEnds(p, q, e, E, f, F)
  {
  }

  lemma {:induction false} AdmitUnlinkedNudges(p: Pairs, e: Ref, b: Ref, plan: Plan, f: Faults)
    requires CanAdmit(p, e, b, plan) && p.ends[e].peer == NULL && plan.count == 0
    ensures Nudged(p, Admit(p, e, b, plan, f), e)
  {
  }

  /** What the checks of `submit` establish. */
  ghost predicate Submittable(p: Pairs, e: Ref, b: Ref, guestCheck: Status) {
    && Admissible(p, e, b) && p.ends[e].operation == NULL
    && ValidateBuffer(p.ends[e], p.bufs[b], p.cells[p.bufs[b].values], guestCheck) == Ok
    && (p.ends[e].peer != NULL && p.ends[p.ends[e].peer].available != NULL && p.ends[e].ty.hasPayload ==>
          !Overlaps(p.bufs[b], p.bufs[p.ends[p.ends[e].peer].available]))
  }

  lemma {:induction false} SubmitChecked(w: World, e: Ref, b: Ref, pinned: bool, guestCheck: Status)
    requires PairInv(w.p) && w.p.ends.Keys == w.o.owns.Keys && e in w.p.ends && b in w.p.bufs
    requires SubmitCheck(w, e, b, pinned, guestCheck) == Ok
    ensures Submittable(w.p, e, b, guestCheck) && SubmitPlan(w.p, e, b).Some? && w.o.owns[e].valueOwner == NULL
  {
    BufFacts(w.p, b);
    hide LinksOk, OperationsOk, Unshared, LeasesHeld, EndsOk, SubmitPlan, Overlaps;
  }

  lemma {:induction false} AdmitSound(p: Pairs, e: Ref, b: Ref, guestCheck: Status, f: Faults)
    requires Submittable(p, e, b, guestCheck) && Conserved(p) && Duty(p, e, b)
    ensures SubmitPlan(p, e, b).Some? && CanAdmit(p, e, b, SubmitPlan(p, e, b).value)
    ensures var q := Admit(p, e, b, SubmitPlan(p, e, b).value, f);
            PairInv(q) && Conserved(q) && Nudged(p, q, e)
  {
    SubmitCanLend(p, e, b, guestCheck);
    hide Conserved, CanLend, Duty, ValidateBuffer, Overlaps, Closed, LinksOk, OperationsOk, Unshared, LeasesHeld;
    hide EndsOk;
    hide SubmitPlan, CanAdmit, Admit, Nudged, Transferable, Lend;
    if p.ends[e].peer == NULL {
      UnlinkedPlan(p, e, b);
      AdmitUnlinkedKeeps(p, e, b, f);
      var plan := SubmitPlan(p, e, b).value;
      AdmitUnlinkedConserves(p, e, b, plan, guestCheck, f);
      AdmitUnlinkedNudges(p, e, b, plan, f);
    } else {
      LinkedPlan(p, e, b);
      var plan := SubmitPlan(p, e, b).value;
      AdmitLinkedKeeps(p, e, b, plan, f);
      hide LinkedPlanFacts;
      if plan.count != 0 {
        LendTransferable(p, e, b, plan);
      }
      AdmitConserves(p, e, b, plan, guestCheck, f);
      AdmitLinkedNudges(p, e, b, plan, f);
    }
  }

  ghost function Submit(w: World, e: Ref, b: Ref, pinned: bool, guestCheck: Status, f: Faults): (r: (World, Status))
    requires Inv(w) && e in w.p.ends && b in w.p.bufs && Duty(w.p, e, b)
  {
    var check := SubmitCheck(w, e, b, pinned, guestCheck);
    if check != Ok then (w, check)
    else
      SubmitChecked(w, e, b, pinned, guestCheck);
      AdmitSound(w.p, e, b, guestCheck, f);
      (w.(p := Admit(w.p, e, b, SubmitPlan(w.p, e, b).value, f)), Ok)
  }

  lemma {:induction false} SubmitKeeps(w: World, e: Ref, b: Ref, pinned: bool, guestCheck: Status, f: Faults)
    requires Inv(w) && e in w.p.ends && b in w.p.bufs && Duty(w.p, e, b)
    ensures Inv(Submit(w, e, b, pinned, guestCheck, f).0)
  {
    if SubmitCheck(w, e, b, pinned, guestCheck) == Ok {
      SubmitChecked(w, e, b, pinned, guestCheck);
      AdmitSound(w.p, e, b, guestCheck, f);
      var q := Admit(w.p, e, b, SubmitPlan(w.p, e, b).value, f);
      assert Submit(w, e, b, pinned, guestCheck, f).0 == w.(p := q);
      hide *;
      NudgeKeeps(w, q, e);
    }
  }

  // ---------------------------------------------------------------- take and cancel

  lemma {:induction false} DeliverForm(w: World, e: Ref, cleanup: Status)
    requires Closed(w.p) && e in w.p.ends && w.p.ends[e].state.pending && Delivered(w.p.ends[e].state).Some?
    ensures var q := Release(w.p, e, Delivered(w.p.ends[e].state).value.state);
            Deliver(w, e, cleanup).0 == w.(p := q) && Nudged(w.p, q, e)
  {
    hide Delivered;
  }

  lemma {:induction false} DeliverKeeps(w: World, e: Ref, cleanup: Status)
    requires Inv(w) && e in w.p.ends && Live(w.p.ends[e], w.o.owns[e])
    ensures Inv(Deliver(w, e, cleanup).0)
    ensures w.p.ends[e].state.pending ==> Delivered(w.p.ends[e].state).Some?
  {
    EndFacts(w.p, e);
    assert Closed(w.p) && Unshared(w.p);
    hide PairInv, Conserved, OwnInv, HomeInv, Closed, Unshared, Delivered, Release, EndOk, Nudged, OperationOk, LinkOk;
    if w.p.ends[e].state.pending {
      DeliveryExists(w.p.ends[e]);
      var s := Delivered(w.p.ends[e].state).value.state;
      ReleaseKeeps(w.p, e);
      ReleaseConserves(w.p, e, s);
      DeliverForm(w, e, cleanup);
      hide Deliver, Inv;
      NudgeKeeps(w, Release(w.p, e, s), e);
    }
  }

  lemma {:induction false} TakeKeeps(w: World, e: Ref, cleanup: Status)
    requires Inv(w) && e in w.p.ends
    ensures Inv(Take(w, e, cleanup).0)
  {
    hide PairInv, Conserved, HomeInv, OwnersInv, Deliver;
    if Live(w.p.ends[e], w.o.owns[e]) {
      DeliverKeeps(w, e, cleanup);
    }
  }

  lemma {:induction false} CancelNudges(p: Pairs, e: Ref)
    requires e in p.ends && CancelRequested(p.ends[e].state, false).Some?
    ensures Nudged(p, p.(ends := p.ends[e := CancelledEnd(p.ends[e])]), e)
  {
  }

  lemma {:induction false} CancelKeepsAll(w: World, e: Ref)
    requires Inv(w) && e in w.p.ends
    ensures Inv(Cancel(w, e).0)
  {
    hide PairInv, Conserved, HomeInv, OwnersInv, EachOwnOk, CancelledEnd, CancelRequested, Nudged;
    if Cancel(w, e).1 == Ok {
      var q := w.p.(ends := w.p.ends[e := CancelledEnd(w.p.ends[e])]);
      CancelKeeps(w.p, e);
      PairClosed(q);
      CancelConserves(w.p, e);
      CancelNudges(w.p, e);
      assert Cancel(w, e).0 == w.(p := q);
      hide Cancel, Inv;
      NudgeKeeps(w, q, e);
    }
  }

  lemma {:induction false} PairClosed(p: Pairs)
    requires PairInv(p)
    ensures Closed(p)
  {
  }

  // ---------------------------------------------------------------- close

  /** Closing `e` changes its peer only by telling it. */
  lemma {:induction false} CloseShifts(p: Pairs, owns: map<Ref, Own>, e: Ref)
    requires Closed(p) && e in p.ends && p.ends[e].initialized && !p.ends[e].closed
    requires HeldAtRest(owns, p.ends) && e in owns && owns[e].valueOwner == NULL
    requires p.ends[e].peer != NULL ==>
               p.ends[p.ends[e].peer].peer == e && DroppedByPeer(p.ends[p.ends[e].peer].state).Some?
    requires p.ends[e].peer != e
    ensures e in ClosePairs(p, e).ends && ClosePairs(p, e).ends[e].closed
    ensures Shift(p.ends, ClosePairs(p, e).ends, {e}) && HeldAtRest(owns, ClosePairs(p, e).ends)
  {
  }

  lemma {:induction false} HeldNow(w: World)
    requires OwnInv(w)
    ensures HeldAtRest(w.o.owns, w.p.ends)
  {
    hide OwnersInv;
  }

  /** What `e` unregisters for. */
  lemma {:induction false} UnregisterShifts(o: Owners, e: Ref)
    requires OwnersInv(o) && e in o.owns && o.owns[e].valueOwner == NULL && !o.owns[e].syncWaiter
    ensures OwnersInv(Unregister(o, e)) && OwnsShifted(o.owns, Unregister(o, e).owns, {e})
  {
    assert PlaceOk(o, e);
    UnregisterKeeps(o, e);
    hide OwnersInv;
  }

  lemma {:induction false} OneGone(w: World, q: Pairs, o: Owners, e: Ref)
    requires Inv(w) && PairInv(q) && Conserved(q) && OwnersInv(o) && e in q.ends && q.ends[e].closed
    requires Shift(w.p.ends, q.ends, {e}) && HeldAtRest(w.o.owns, q.ends) && OwnsShifted(w.o.owns, o.owns, {e})
    ensures Inv(World(q, o, Note(w.h, q.ends, e)))
  {
    hide PairInv, Conserved, OwnInv, OwnersInv, HomesOk, ReleasedOk, Shift, HeldAtRest, OwnsShifted, Note;
    var v := World(q, o, Note(w.h, q.ends, e));
    ShiftOwns(w, v, {e});
    ShiftHomes(w.p.ends, q.ends, w.h.homes, {e});
    ShiftReleased(w.p.ends, q.ends, w.h, {e});
    GoneHome(w.p.ends, q.ends, w.h.homes, {e}, e);
    assert {} + {e} == {e};
    NoteKeeps(w.h, q.ends, e, {});
  }

  lemma {:induction false} ShiftKeys(p: map<Ref, End>, q: map<Ref, End>, gone: set<Ref>)
    requires Shift(p, q, gone)
    ensures q.Keys == p.Keys
  {
  }

  lemma {:induction false} GoneHome(p: map<Ref, End>, q: map<Ref, End>, homes: map<Ref, Home>, gone: set<Ref>, e: Ref)
    requires HomesOk(q, homes) && Shift(p, q, gone) && e in gone
    ensures e in homes && e in q
  {
    assert ShiftOne(p[e], q[e], gone, true);
  }

  lemma {:induction false} CloseCheckForm(w: World, e: Ref)
    requires Closed(w.p) && e in w.p.ends && w.p.ends.Keys == w.o.owns.Keys && EndOk(w.p.ends[e]) && ClaimsHeld(w.o, e)
    requires w.p.ends[e].peer != NULL && w.p.ends[e].operation == NULL ==>
               w.p.ends[w.p.ends[e].peer].peer == e && DroppedByPeer(w.p.ends[w.p.ends[e].peer].state).Some?
    ensures CloseCheck(w, e) == Ok <==>
            Live(w.p.ends[e], w.o.owns[e]) && w.p.ends[e].operation == NULL && !w.o.owns[e].syncWaiter
  {
    hide DroppedByPeer;
  }

  /** An end closes exactly if it is held directly or by a table, has no
      operation and no waiter; the consistency checks of `close` never fail. */
  lemma {:induction false} CloseExactly(w: World, e: Ref)
    requires Inv(w) && e in w.p.ends
    ensures CloseCheck(w, e) == Ok <==>
            Live(w.p.ends[e], w.o.owns[e]) && w.p.ends[e].operation == NULL && !w.o.owns[e].syncWaiter
    ensures EndOk(w.p.ends[e])
    ensures w.p.ends[e].peer != NULL && w.p.ends[e].operation == NULL ==>
              w.p.ends[e].peer != e && w.p.ends[w.p.ends[e].peer].peer == e
                && DroppedByPeer(w.p.ends[w.p.ends[e].peer].state).Some?
  {
    hide PairInv, Conserved, HomeInv, OwnersInv, EachOwnOk, EndOk, LinkOk, OperationOk;
    EndFacts(w.p, e);
    PairClosed(w.p);
    OwnFacts(w);
    assert ClaimsHeld(w.o, e);
    if w.p.ends[e].peer != NULL && w.p.ends[e].operation == NULL {
      LinkOpen(w.p, e);
      CloseKeeps(w.p, e);
    }
    hide Inv, OwnInv;
    CloseCheckForm(w, e);
  }

  lemma {:induction false} LinkOpen(p: Pairs, e: Ref)
    requires PairInv(p) && e in p.ends && p.ends[e].peer != NULL
    ensures p.ends[e].initialized && !p.ends[e].closed
  {
    hide OperationsOk, Unshared, LeasesHeld, EndsOk;
  }

  lemma {:induction false} CloseKeepsAll(w: World, e: Ref)
    requires Inv(w) && e in w.p.ends
    ensures Inv(Close(w, e).0) && Close(w, e).0.p.ends.Keys == w.p.ends.Keys
  {
    CloseExactly(w, e);
    hide PairInv, Conserved, HomeInv, OwnersInv, EachOwnOk, EndOk, DroppedByPeer, ClosePairs, Unregister, Note;
    hide CloseCheck, Shift, HeldAtRest, OwnsShifted;
    if CloseCheck(w, e) == Ok {
      HeldNow(w);
      OwnFacts(w);
      PairClosed(w.p);
      CloseShifts(w.p, w.o.owns, e);
      CloseKeeps(w.p, e);
      PairClosed(ClosePairs(w.p, e));
      CloseConserves(w.p, e);
      UnregisterShifts(w.o, e);
      var q, o := ClosePairs(w.p, e), Unregister(w.o, e);
      assert Close(w, e).0 == World(q, o, Note(w.h, q.ends, e));
      assert q.ends.Keys == w.p.ends.Keys by {
        ShiftKeys(w.p.ends, q.ends, {e});
      }
      hide Close, Inv;
      OneGone(w, q, o, e);
    }
  }

  // ---------------------------------------------------------------- forward

  /** The surviving ends of a splice stay at rest if they were. */
  lemma {:induction false} SpliceRest(p: Pairs, r: Ref, w: Ref, plan: Splice)
    requires Closed(p) && r in p.ends && w in p.ends && SplicePlan(p, r, w) == Some(plan)
    ensures p.ends[r].available == NULL || p.ends[w].available == NULL ==>
              plan == Splice(p.ends[r].state, p.ends[w].state, 0, false, false)
  {
  }

  lemma {:induction false} FourShift(p: map<Ref, End>, q: map<Ref, End>, owns: map<Ref, Own>, s: Ref, d: Ref, r: Ref,
      w: Ref)
    requires s in p && d in p && r in p && w in p && s != d && s != r && s != w && d != r && d != w && r != w
    requires p[s].peer == w && p[d].peer == r && p[w].peer == s && p[r].peer == d
    requires q.Keys == p.Keys && (forall x :: x in p && x != s && x != d && x != r && x != w ==> q[x] == p[x])
    requires forall x :: x in {s, d} ==> p[x].initialized && !p[x].closed && q[x] == ClosedEnd(p[x])
    requires forall x :: x in {r, w} ==>
               q[x].initialized == p[x].initialized && q[x].closed == p[x].closed && q[x].readable == p[x].readable
               && q[x].ty == p[x].ty && (Frozen(p[x]) ==> Frozen(q[x]))
    requires HeldAtRest(owns, p) && s in owns && d in owns && owns[s].valueOwner == NULL && owns[d].valueOwner == NULL
    ensures Shift(p, q, {s, d}) && HeldAtRest(owns, q)
  {
    hide Frozen;
  }

  lemma {:induction false} SpliceShifts(p: Pairs, owns: map<Ref, Own>, s: Ref, d: Ref, plan: Splice, f: Faults)
    requires CanForward(p, s, d) && HeldAtRest(owns, p.ends)
    requires s in owns && d in owns && owns[s].valueOwner == NULL && owns[d].valueOwner == NULL
    requires p.ends[d].peer in p.ends && p.ends[s].peer in p.ends
    requires SplicePlan(p, p.ends[d].peer, p.ends[s].peer) == Some(plan) && CanSplice(p, s, d, plan)
    ensures var q := SplicePairs(p, s, d, plan, f).0;
            Shift(p.ends, q.ends, {s, d}) && HeldAtRest(owns, q.ends) && q.ends[s].closed && q.ends[d].closed
  {
    var r, w := p.ends[d].peer, p.ends[s].peer;
    ForwardFour(p, s, d);
    ForwardJoinable(p, s, d);
    LinkOpen(p, s);
    LinkOpen(p, d);
    assert CanForward(p, s, d) && PairInv(p);
    hide PairInv, EndOk, Joinable, HeldAtRest, Frozen, SplicePairs, CanSplice, SplicePlan, Fail, CanForward, Shift;
    hide Transferable, SplicedEnd;
    SplicePlanOf(p, s, d, plan);
    SplicePairsEnds(p, s, d, r, w, plan, f);
    PairClosed(p);
    SpliceRest(p, r, w, plan);
    var (q, status) := SplicePairs(p, s, d, plan, f);
    forall x | x in {r, w}
      ensures q.ends[x].initialized == p.ends[x].initialized && q.ends[x].closed == p.ends[x].closed
      ensures q.ends[x].readable == p.ends[x].readable && q.ends[x].ty == p.ends[x].ty
      ensures Frozen(p.ends[x]) ==> Frozen(q.ends[x])
    {
      SurvivorRests(p, q, s, d, r, w, plan, status, x);
    }
    FourShift(p.ends, q.ends, owns, s, d, r, w);
  }

  lemma {:induction false} SplicePlanOf(p: Pairs, s: Ref, d: Ref, plan: Splice)
    requires CanForward(p, s, d) && p.ends[d].peer in p.ends && p.ends[s].peer in p.ends
    requires Closed(p) && SplicePlan(p, p.ends[d].peer, p.ends[s].peer) == Some(plan)
    ensures plan.count != 0 ==>
              Transferable(Join(p, s, d, p.ends[d].peer, p.ends[s].peer), p.ends[d].peer, p.ends[s].peer, plan.count)
  {
    ForwardFour(p, s, d);
    ForwardJoinable(p, s, d);
    var r, w := p.ends[d].peer, p.ends[s].peer;
    assert r != NULL && w != NULL && PairInv(p);
    hide PairInv, EndOk, Joinable, Closed, SplicePlan, Join, Transferable, SplicePlanFacts;
    SplicePlanExists(p, r, w);
    if plan.count != 0 {
      assert p.ends[r].ty == p.ends[w].ty by {
        JoinableTypes(p.ends[r], p.ends[w]);
      }
      JoinTransferable(p, s, d, r, w, plan);
    }
  }

  lemma {:induction false} JoinableTypes(R: End, W: End)
    requires Joinable(R, W)
    ensures R.ty == W.ty
  {
  }

  lemma {:induction false} SurvivorRests(p: Pairs, q: Pairs, s: Ref, d: Ref, r: Ref, w: Ref, plan: Splice,
      status: Status, x: Ref)
    requires FourEnds(p, s, d, r, w) && x in {r, w}
    requires if status == Ok then
               FourChanged(p, q, s, d, r, SplicedEnd(p.ends[r], w, plan.read, plan.readDone), w,
               SplicedEnd(p.ends[w], r, plan.write, plan.writeDone))
             else FourChanged(p, q, s, d, r, Fail(p.ends[r].(peer := w), status), w,
               Fail(p.ends[w].(peer := r), status))
    requires p.ends[r].available == NULL || p.ends[w].available == NULL ==>
               plan == Splice(p.ends[r].state, p.ends[w].state, 0, false, false)
    requires status != Ok ==> plan.count != 0
    ensures q.ends[x].initialized == p.ends[x].initialized && q.ends[x].closed == p.ends[x].closed
    ensures q.ends[x].readable == p.ends[x].readable && q.ends[x].ty == p.ends[x].ty
    ensures Frozen(p.ends[x]) ==> Frozen(q.ends[x])
  {
  }

  lemma {:induction false} TwoGone(w: World, q: Pairs, o: Owners, s: Ref, d: Ref)
    requires Inv(w) && PairInv(q) && Conserved(q) && OwnersInv(o)
    requires s in q.ends && d in q.ends && q.ends[s].closed && q.ends[d].closed && s != d
    requires s in w.p.ends && w.p.ends[s].peer != d
    requires Shift(w.p.ends, q.ends, {s, d}) && HeldAtRest(w.o.owns, q.ends) && OwnsShifted(w.o.owns, o.owns, {s, d})
    ensures Inv(World(q, o, Note(Note(w.h, q.ends, s), q.ends, d)))
  {
    hide PairInv, Conserved, OwnInv, OwnersInv, HomesOk, ReleasedOk, Shift, HeldAtRest, OwnsShifted, Note;
    var v := World(q, o, Note(Note(w.h, q.ends, s), q.ends, d));
    ShiftOwns(w, v, {s, d});
    ShiftHomes(w.p.ends, q.ends, w.h.homes, {s, d});
    ShiftReleased(w.p.ends, q.ends, w.h, {s, d});
    GoneHome(w.p.ends, q.ends, w.h.homes, {s, d}, s);
    GoneHome(w.p.ends, q.ends, w.h.homes, {s, d}, d);
    GoneApart(w.p.ends, q.ends, w.h.homes, s, d);
    assert {d} + {s} == {s, d} && {} + {d} == {d};
    NoteKeeps(w.h, q.ends, s, {d});
    NoteKeeps(Note(w.h, q.ends, s), q.ends, d, {});
  }

  /** Two open ends that are not linked were not created together. */
  lemma {:induction false} GoneApart(p: map<Ref, End>, q: map<Ref, End>, homes: map<Ref, Home>, s: Ref, d: Ref)
    requires HomesOk(p, homes) && Shift(p, q, {s, d}) && s in homes && d in homes && p[s].peer != d && s != d
    ensures homes[s].other != d && homes[d].other != s
  {
    assert ShiftOne(p[s], q[s], {s, d}, true) && ShiftOne(p[d], q[d], {s, d}, true);
    assert HomeOk(p, homes, s) && HomeOk(p, homes, d);
  }

  lemma {:induction false} UnregisterBoth(o: Owners, s: Ref, d: Ref)
    requires OwnersInv(o) && s in o.owns && d in o.owns && s != d
    requires o.owns[s].valueOwner == NULL && !o.owns[s].syncWaiter && o.owns[d].valueOwner == NULL
    requires !o.owns[d].syncWaiter
    ensures d in Unregister(o, s).owns && OwnersInv(Unregister(Unregister(o, s), d))
    ensures OwnsShifted(o.owns, Unregister(Unregister(o, s), d).owns, {s, d})
  {
    hide OwnersInv, Unregister;
    UnregisterShifts(o, s);
    UnregisterOther(o, s, d);
    UnregisterShifts(Unregister(o, s), d);
  }

  lemma {:induction false} UnregisterOther(o: Owners, e: Ref, x: Ref)
    requires e in o.owns && x in o.owns && x != e
    ensures x in Unregister(o, e).owns && Unregister(o, e).owns[x] == o.owns[x]
  {
  }

  /** What the checks of `forward` establish. */
  lemma {:induction false} ForwardChecked(w: World, s: Ref, d: Ref)
    requires Inv(w) && s in w.p.ends && d in w.p.ends && ForwardCheck(w, s, d) == Ok
    ensures s != d && Live(w.p.ends[s], w.o.owns[s]) && Live(w.p.ends[d], w.o.owns[d]) && !w.o.owns[s].syncWaiter
    ensures !w.o.owns[d].syncWaiter
    ensures w.p.ends[s].operation == NULL && w.p.ends[d].operation == NULL
    ensures !NothingToJoin(w.p, s, d) ==> CanForward(w.p, s, d)
  {
    hide PairInv, Conserved, HomeInv, OwnersInv, EachOwnOk, Registered;
  }

  /** Splices the peers of `source` and `destination` together. */
  ghost function Spliced(w: World, source: Ref, destination: Ref, f: Faults): (r: (World, Status))
    requires Inv(w) && source in w.p.ends && destination in w.p.ends && ForwardCheck(w, source, destination) == Ok
    requires !NothingToJoin(w.p, source, destination)
  {
    SplicedFits(w, source, destination, f);
    var (q, status) :=
      SplicePairs(w.p, source, destination, SplicePlan(w.p, w.p.ends[destination].peer, w.p.ends[source].peer).value,
      f);
    (World(q, Unregister(Unregister(w.o, source), destination), Note(Note(w.h, q.ends, source), q.ends, destination)),
      status)
  }

  lemma {:induction false} SplicedFits(w: World, s: Ref, d: Ref, f: Faults)
    requires Inv(w) && s in w.p.ends && d in w.p.ends && ForwardCheck(w, s, d) == Ok && !NothingToJoin(w.p, s, d)
    ensures w.p.ends[s].peer in w.p.ends && w.p.ends[d].peer in w.p.ends && Closed(w.p)
    ensures SplicePlan(w.p, w.p.ends[d].peer, w.p.ends[s].peer).Some?
    ensures s in w.o.owns && d in Unregister(w.o, s).owns
    ensures var plan := SplicePlan(w.p, w.p.ends[d].peer, w.p.ends[s].peer).value;
            && CanSplice(w.p, s, d, plan)
            && var q := SplicePairs(w.p, s, d, plan, f).0;
            && s in q.ends && d in q.ends && q.ends[s].closed && q.ends[d].closed && PairInv(q) && Conserved(q)
            && Shift(w.p.ends, q.ends, {s, d}) && HeldAtRest(w.o.owns, q.ends)
  {
    ForwardChecked(w, s, d);
    HeldNow(w);
    OwnFacts(w);
    UnregisterBoth(w.o, s, d);
    hide PairInv, Conserved, HomeInv, OwnersInv, EachOwnOk, ForwardCheck, CanForward, SplicePlan, SplicePairs;
    hide CanSplice, HeldAtRest, Unregister, OwnsShifted;
    PairClosed(w.p);
    ForwardKeeps(w.p, s, d, f);
    var plan := SplicePlan(w.p, w.p.ends[d].peer, w.p.ends[s].peer).value;
    SpliceShifts(w.p, w.o.owns, s, d, plan, f);
    SplicedConserves(w.p, s, d, plan, f);
  }

  lemma {:induction false} SplicedConserves(p: Pairs, s: Ref, d: Ref, plan: Splice, f: Faults)
    requires CanForward(p, s, d) && Conserved(p) && Closed(p) && p.ends[d].peer in p.ends && p.ends[s].peer in p.ends
    requires SplicePlan(p, p.ends[d].peer, p.ends[s].peer) == Some(plan) && CanSplice(p, s, d, plan)
    requires PairInv(SplicePairs(p, s, d, plan, f).0)
    ensures Conserved(SplicePairs(p, s, d, plan, f).0)
  {
    ForwardFour(p, s, d);
    ForwardJoinable(p, s, d);
    assert PairInv(p) && Unshared(p);
    hide PairInv, Conserved, CanForward, SplicePlan, SplicePairs, CanSplice, Closed, Unshared, FourEnds, Joinable;
    hide Transferable;
    SplicePlanOf(p, s, d, plan);
    PairClosed(SplicePairs(p, s, d, plan, f).0);
    SpliceConserves(p, s, d, p.ends[d].peer, p.ends[s].peer, plan, f);
  }

  lemma {:induction false} SplicedKeeps(w: World, s: Ref, d: Ref, f: Faults)
    requires Inv(w) && s in w.p.ends && d in w.p.ends && ForwardCheck(w, s, d) == Ok && !NothingToJoin(w.p, s, d)
    ensures Inv(Spliced(w, s, d, f).0)
  {
    ForwardChecked(w, s, d);
    OwnFacts(w);
    hide PairInv, Conserved, HomeInv, OwnersInv, EachOwnOk, ForwardCheck, CanForward, SplicePlan, SplicePairs;
    hide CanSplice, HeldAtRest, Unregister, OwnsShifted, Shift, Note;
    UnregisterBoth(w.o, s, d);
    SplicedFits(w, s, d, f);
    var plan := SplicePlan(w.p, w.p.ends[d].peer, w.p.ends[s].peer).value;
    var q := SplicePairs(w.p, s, d, plan, f).0;
    var o := Unregister(Unregister(w.o, s), d);
    assert Spliced(w, s, d, f).0 == World(q, o, Note(Note(w.h, q.ends, s), q.ends, d));
    hide Spliced, Inv, OwnInv;
    TwoGone(w, q, o, s, d);
  }

  ghost function Forward(w: World, source: Ref, destination: Ref, f: Faults): (r: (World, Status))
    requires Inv(w) && source in w.p.ends && destination in w.p.ends
  {
    var check := ForwardCheck(w, source, destination);
    if check != Ok then (w, check)
    else if NothingToJoin(w.p, source, destination) then
      var (v, status) := Close(w, source);
      CloseKeepsAll(w, source);
      if status == Ok then Close(v, destination) else (v, status)
    else
      SplicedFits(w, source, destination, f);
      if SpliceRefused(w, w.p.ends[destination].peer, w.p.ends[source].peer) then (w, Trapped)
      else Spliced(w, source, destination, f)
  }

  lemma {:induction false} ForwardKeepsAll(w: World, s: Ref, d: Ref, f: Faults)
    requires Inv(w) && s in w.p.ends && d in w.p.ends
    ensures Inv(Forward(w, s, d, f).0)
  {
    hide PairInv, Conserved, HomeInv, OwnInv, ForwardCheck, NothingToJoin, Close, Spliced, SpliceRefused;
    PairClosed(w.p);
    OwnFacts(w);
    if ForwardCheck(w, s, d) == Ok {
      if NothingToJoin(w.p, s, d) {
        CloseKeepsAll(w, s);
        CloseKeepsAll(Close(w, s).0, d);
      } else {
        SplicedKeeps(w, s, d, f);
      }
    }
  }
}
