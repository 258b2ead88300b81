/**
  What a meeting of two operations does, read off the buffers and the ends of
  the two states alone: how much it moves, which of the two operations
  completes, and which one goes on waiting.
 */
module EndpointRendezvous {
  import opened Common
  import opened AsyncState
  import opened EndpointModel
  import opened EndpointInvariant
  import opened EndpointFlow
  import opened EndpointOwnership
  import opened EndpointTransactions
  import opened EndpointHomes
  import opened EndpointSteps
  import opened EndpointMoves
  import opened EndpointRuns
  import opened EndpointProgress
  import opened EndpointTheorems
  import opened EndpointPromises

  // ---------------------------------------------------------------- what a meeting leaves

  /** `n` elements went through both buffers, and one of them is used up. */
  ghost predicate Filled(p: Pairs, q: Pairs, b: Ref, from: nat, o: Ref, n: nat) {
    && b in p.bufs && o in p.bufs && b in q.bufs && o in q.bufs && b != o && n > 0
    && q.bufs[b].length == p.bufs[b].length && q.bufs[o].length == p.bufs[o].length
    && q.bufs[b].progress == from + n && q.bufs[o].progress == p.bufs[o].progress + n
    && q.bufs[b].progress <= q.bufs[b].length && q.bufs[o].progress <= q.bufs[o].length
    && (q.bufs[b].progress == q.bufs[b].length || q.bufs[o].progress == q.bufs[o].length)
  }

  /** The operation of `x` has its event, reporting `n`, and waits no longer. */
  ghost predicate Completed(q: Pairs, x: Ref, n: nat) {
    x in q.ends && q.ends[x].operation != NULL && q.ends[x].state.pending && q.ends[x].state.progress == n
    && q.ends[x].available == NULL
  }

  /** The operation of `x` has no event and is open to the next peer. */
  ghost predicate Waiting(q: Pairs, x: Ref, b: Ref) {
    x in q.ends && b != NULL && q.ends[x].operation == b && q.ends[x].available == b && !q.ends[x].state.pending
  }

  /** No element moved, in any buffer. */
  ghost predicate Unmoved(p: Pairs, q: Pairs, b: Ref) {
    && q.cells == p.cells && q.bufs.Keys == p.bufs.Keys
    && (forall x :: x in p.bufs && x != b ==> q.bufs[x] == p.bufs[x])
    && b in q.bufs && q.bufs[b].progress == 0 && q.bufs[b].moved == []
  }

  // ---------------------------------------------------------------- submit

  /** A submission that passed its refusals against a peer with a waiting buffer. */
  ghost predicate Meets(w: World, e: Ref, b: Ref, pinned: bool, guestCheck: Status) {
    && Inv(w) && e in w.p.ends && b in w.p.bufs && Duty(w.p, e, b)
    && SubmitCheck(w, e, b, pinned, guestCheck) == Ok
    && w.p.ends[e].peer != NULL && w.p.ends[e].peer in w.p.ends
    && w.p.ends[w.p.ends[e].peer].available != NULL && w.p.ends[w.p.ends[e].peer].available in w.p.bufs
  }

  /** What the plan of such a submission has to be, from the two buffers. */
  lemma {:induction false} PlanMoves(p: Pairs, e: Ref, b: Ref, plan: Plan)
    requires Closed(p) && e in p.ends && b in p.bufs && SubmitPlan(p, e, b) == Some(plan)
    requires p.ends[e].peer != NULL && p.ends[p.ends[e].peer].available != NULL
    ensures var o := p.bufs[p.ends[p.ends[e].peer].available]; var v := p.bufs[b];
            && o.progress <= o.length
            && (v.length != 0 && o.progress < o.length ==>
                 && 0 < plan.count <= v.length && o.progress + plan.count <= o.length
                 && (plan.count == v.length || o.progress + plan.count == o.length)
                 && plan.self.pending && plan.self.progress == plan.count && !plan.selfAvailable
                 && plan.peer.pending && plan.peer.progress == o.progress + plan.count
                 && (plan.otherFinished <==> o.progress + plan.count == o.length))
  {
    hide Closed;
  }

  /** ... and when one of the two buffers has no room left. */
  lemma {:induction false} PlanWaits(p: Pairs, e: Ref, b: Ref, plan: Plan)
    requires Closed(p) && e in p.ends && b in p.bufs && SubmitPlan(p, e, b) == Some(plan)
    requires p.ends[e].peer != NULL && p.ends[p.ends[e].peer].available != NULL
    requires var o := p.bufs[p.ends[p.ends[e].peer].available]; p.bufs[b].length == 0 || o.progress == o.length
    ensures var o := p.bufs[p.ends[p.ends[e].peer].available];
            var peerFirst := p.bufs[b].length != 0 || (p.ends[e].readable && o.progress == o.length);
            && plan.count == 0 && plan.selfAvailable == plan.otherFinished == peerFirst
            && (peerFirst ==> plan.peer.pending && plan.peer.progress == 0 && Begun(p.ends[e].state) == Some(plan.self))
            && (!peerFirst ==>
                 plan.peer == p.ends[p.ends[e].peer].state && plan.self.pending && plan.self.progress == 0)
  {
    hide Closed;
  }

  /** ... and when the peer has nothing waiting, or is gone. */
  lemma {:induction false} PlanAlone(p: Pairs, e: Ref, b: Ref, plan: Plan)
    requires Closed(p) && e in p.ends && b in p.bufs && SubmitPlan(p, e, b) == Some(plan)
    requires p.ends[e].peer != NULL ==> p.ends[p.ends[e].peer].available == NULL
    ensures plan.count == 0 && Begun(p.ends[e].state) == Some(plan.self)
    ensures plan.selfAvailable <==> p.ends[e].peer != NULL
    ensures p.ends[e].peer != NULL ==> plan.peer == p.ends[p.ends[e].peer].state && !plan.otherFinished
  {
    hide Closed;
  }

  /** The submission as an admission of its plan. */
  lemma {:induction false} SubmitAdmits(w: World, e: Ref, b: Ref, pinned: bool, guestCheck: Status, f: Faults)
    requires Inv(w) && e in w.p.ends && b in w.p.bufs && Duty(w.p, e, b)
    requires SubmitCheck(w, e, b, pinned, guestCheck) == Ok
    ensures PairInv(w.p) && Closed(w.p) && Submittable(w.p, e, b, guestCheck) && SubmitPlan(w.p, e, b).Some?
    ensures b != NULL
    ensures var plan := SubmitPlan(w.p, e, b).value;
            && CanAdmit(w.p, e, b, plan)
            && Submit(w, e, b, pinned, guestCheck, f) == (w.(p := Admit(w.p, e, b, plan, f)), Ok)
  {
    PairClosed(w.p);
    SubmitChecked(w, e, b, pinned, guestCheck);
    AdmitSound(w.p, e, b, guestCheck, f);
    hide PairInv, Conserved, HomeInv, OwnersInv, EachOwnOk, SubmitPlan, Admit, CanAdmit;
    hide SubmitCheck, ValidateBuffer, Overlaps, Duty;
  }

  /** Of a waiting peer: its buffer is that of its operation, in progress. */
  lemma {:induction false} WaitingPeer(p: Pairs, e: Ref)
    requires PairInv(p) && e in p.ends && p.ends[e].peer != NULL && p.ends[e].peer in p.ends
    requires p.ends[p.ends[e].peer].available != NULL
    ensures var P := p.ends[p.ends[e].peer];
            && P.operation == P.available && P.operation in p.bufs && P.peer == e && P.readable != p.ends[e].readable
            && (p.bufs[P.operation].progress < p.bufs[P.operation].length || p.bufs[P.operation].length == 0)
            && (P.failure == Ok ==> P.state.progress == p.bufs[P.operation].progress)
  {
    EndFacts(p, e);
    EndFacts(p, p.ends[e].peer);
    hide PairInv;
  }

  /** What a copying submission of `b` at `e` against the buffer `o` of `x` leaves. */
  ghost predicate Exchanged(p: Pairs, q: Pairs, e: Ref, b: Ref, x: Ref, o: Ref) {
    && b in q.bufs && Filled(p, q, b, 0, o, q.bufs[b].progress) && Completed(q, e, q.bufs[b].progress)
    && x in q.ends && q.ends[x].operation == o && q.ends[x].state.pending
    && q.ends[x].state.progress == q.bufs[o].progress
    && (q.ends[x].available == o <==> q.bufs[o].progress < q.bufs[o].length)
    && (q.ends[x].available == NULL <==> q.bufs[o].progress == q.bufs[o].length)
  }

  lemma {:induction false} CopyExchanges(p: Pairs, q: Pairs, e: Ref, b: Ref, plan: Plan)
    requires Closed(p) && e in p.ends && b in p.bufs && p.bufs[b].values in p.cells && b != NULL
    requires SubmitPlan(p, e, b) == Some(plan)
    requires p.ends[e].peer != NULL && p.ends[p.ends[e].peer].available != NULL
    requires p.ends[p.ends[e].peer].operation == p.ends[p.ends[e].peer].available != b
    requires var o := p.bufs[p.ends[p.ends[e].peer].available]; p.bufs[b].length != 0 && o.progress < o.length
    requires CopyFacts(p, q, e, b, plan.count, Ok, AdmittedEnd(p.ends[e], b, plan),
                       AdmittedPeer(p.ends[p.ends[e].peer], plan))
    ensures Exchanged(p, q, e, b, p.ends[e].peer, p.ends[p.ends[e].peer].available)
  {
    hide SubmitPlan;
    PlanMoves(p, e, b, plan);
    hide Closed;
  }

  lemma {:induction false} AdmitExchanges(p: Pairs, e: Ref, b: Ref, plan: Plan, f: Faults)
    requires Closed(p) && e in p.ends && b in p.bufs && SubmitPlan(p, e, b) == Some(plan)
    requires CopyReady(p, e, b, plan.count) && CanAdmit(p, e, b, plan)
    requires p.ends[p.ends[e].peer].operation == p.ends[p.ends[e].peer].available && b != NULL
    requires var o := p.bufs[p.ends[p.ends[e].peer].available]; p.bufs[b].length != 0 && o.progress < o.length
    ensures var q := Admit(p, e, b, plan, f); var x := p.ends[e].peer;
            && e in q.ends && x in q.ends
            && (q.ends[e].failure == Ok && q.ends[x].failure == Ok ==>
                 Exchanged(p, q, e, b, x, p.ends[x].available))
  {
    hide Closed, SubmitPlan, Admit, CanAdmit, AdmitStatus, Exchanged, CopyBufs, Transferable, SameShape;
    if AdmitStatus(p, e, b, plan, f) == Ok {
      AdmitCopiedFacts(p, e, b, plan, f);
      CopyExchanges(p, Admit(p, e, b, plan, f), e, b, plan);
    } else {
      AdmitFailedFacts(p, e, b, plan, f);
    }
  }

  /** When both sides have room, the meeting moves as much as the smaller of
      them, through both: afterwards one of the two buffers is used up, both
      operations have their events, and the peer stays open to the next
      submission exactly if it still has room. */
  lemma {:induction false} SubmitFills(w: World, e: Ref, b: Ref, pinned: bool, guestCheck: Status, f: Faults)
    requires Meets(w, e, b, pinned, guestCheck)
    requires var o := w.p.bufs[w.p.ends[w.p.ends[e].peer].available]; w.p.bufs[b].length != 0 && o.progress < o.length
    ensures var (v, status) := Submit(w, e, b, pinned, guestCheck, f);
            var x, o := w.p.ends[e].peer, w.p.ends[w.p.ends[e].peer].available;
            && status == Ok && e in v.p.ends && x in v.p.ends
            && (v.p.ends[e].failure == Ok && v.p.ends[x].failure == Ok ==> Exchanged(w.p, v.p, e, b, x, o))
  {
    SubmitAdmits(w, e, b, pinned, guestCheck, f);
    WaitingPeer(w.p, e);
    var plan := SubmitPlan(w.p, e, b).value;
    PlanMoves(w.p, e, b, plan);
    LinkedPlan(w.p, e, b);
    AdmitCopyReady(w.p, e, b, plan);
    hide PairInv, Closed, Inv, LinkedPlanFacts, SubmitPlan, Admit, CanAdmit, Submit, CopyReady, AdmitStatus;
    hide SubmitCheck, ValidateBuffer, Overlaps, Duty, Admissible, Exchanged, CopyBufs;
    AdmitExchanges(w.p, e, b, plan, f);
  }

  /** An admission that copies nothing only lends the buffer. */
  lemma {:induction false} AdmitLends(p: Pairs, e: Ref, b: Ref, plan: Plan, f: Faults)
    requires CanAdmit(p, e, b, plan) && plan.count == 0
    ensures var q := Admit(p, e, b, plan, f);
            && Unmoved(p, q, b) && e in q.ends && q.ends.Keys == p.ends.Keys
            && (p.ends[e].peer != e ==> q.ends[e] == AdmittedEnd(p.ends[e], b, plan))
            && (p.ends[e].peer != NULL && p.ends[e].peer in p.ends ==>
                 q.ends[p.ends[e].peer] == AdmittedPeer(p.ends[p.ends[e].peer], plan))
  {
    hide CanTransfer;
  }

  /** A linked end has no event before it starts an operation. */
  lemma {:induction false} QuietStart(p: Pairs, e: Ref, b: Ref)
    requires Admissible(p, e, b)
    ensures p.ends[e].peer != e
    ensures p.ends[e].peer != NULL ==> !p.ends[e].state.pending
    ensures p.ends[e].peer == NULL ==> p.ends[e].state.pending && p.ends[e].state.progress == 0
  {
    EndFacts(p, e);
    hide PairInv;
  }

  /** When a side has nothing to move, nothing moves, and exactly one of the two
      operations completes, with no elements. A submission with room completes
      the peer's empty one and waits itself. An empty submission completes
      before a peer with room, which waits on undisturbed. Of two empty
      operations the writer's completes and the reader's waits. */
  lemma {:induction false} SubmitOnEmpty(w: World, e: Ref, b: Ref, pinned: bool, guestCheck: Status, f: Faults)
    requires Meets(w, e, b, pinned, guestCheck)
    requires var o := w.p.bufs[w.p.ends[w.p.ends[e].peer].available]; w.p.bufs[b].length == 0 || o.length == 0
    ensures var (v, status) := Submit(w, e, b, pinned, guestCheck, f);
            var x, o := w.p.ends[e].peer, w.p.ends[w.p.ends[e].peer].available;
            && status == Ok && Unmoved(w.p, v.p, b) && x in v.p.ends && v.p.ends[x].operation == o
            && (w.p.bufs[b].length != 0 ==> Completed(v.p, x, 0) && Waiting(v.p, e, b))
            && (w.p.bufs[o].length != 0 ==> Completed(v.p, e, 0) && v.p.ends[x] == w.p.ends[x])
            && (w.p.bufs[b].length == 0 && w.p.bufs[o].length == 0 ==>
                 if w.p.ends[e].readable then Completed(v.p, x, 0) && Waiting(v.p, e, b)
                 else Completed(v.p, e, 0) && v.p.ends[x] == w.p.ends[x])
  {
    SubmitAdmits(w, e, b, pinned, guestCheck, f);
    WaitingPeer(w.p, e);
    var plan := SubmitPlan(w.p, e, b).value;
    assert w.p.bufs[w.p.ends[w.p.ends[e].peer].available].progress <=
           w.p.bufs[w.p.ends[w.p.ends[e].peer].available].length by {
      PlanMoves(w.p, e, b, plan);
    }
    hide PairInv, Closed, Inv, LinkedPlanFacts, SubmitPlan, Admit, CanAdmit, Submit, Unmoved;
    hide SubmitCheck, ValidateBuffer, Overlaps, Duty;
    QuietStart(w.p, e, b);
    PlanWaits(w.p, e, b, plan);
    AdmitLends(w.p, e, b, plan, f);
  }

  /** Without a waiting peer the submission waits, unless the peer is gone: then
      it completes at once with no elements. */
  lemma {:induction false} SubmitAlone(w: World, e: Ref, b: Ref, pinned: bool, guestCheck: Status, f: Faults)
    requires Inv(w) && e in w.p.ends && b in w.p.bufs && Duty(w.p, e, b)
    requires Closed(w.p) && w.p.ends.Keys == w.o.owns.Keys && SubmitCheck(w, e, b, pinned, guestCheck) == Ok
    requires w.p.ends[e].peer != NULL ==> w.p.ends[w.p.ends[e].peer].available == NULL
    ensures var (v, status) := Submit(w, e, b, pinned, guestCheck, f);
            && status == Ok && Unmoved(w.p, v.p, b)
            && (w.p.ends[e].peer != NULL ==>
                 Waiting(v.p, e, b) && w.p.ends[e].peer in v.p.ends
                 && v.p.ends[w.p.ends[e].peer] == w.p.ends[w.p.ends[e].peer])
            && (w.p.ends[e].peer == NULL ==> Completed(v.p, e, 0))
  {
    hide PairInv, Inv, Admit, CanAdmit, Unmoved, SubmitCheck, ValidateBuffer, Overlaps, Duty, SubmitPlan, Submit;
    SubmitAdmits(w, e, b, pinned, guestCheck, f);
    var plan := SubmitPlan(w.p, e, b).value;
    QuietStart(w.p, e, b);
    PlanAlone(w.p, e, b, plan);
    AdmitLends(w.p, e, b, plan, f);
  }

  // ---------------------------------------------------------------- forward

  /** A forward that has to join the peers of its ends, both of which wait. */
  ghost predicate JoinsTwo(w: World, s: Ref, d: Ref) {
    && Inv(w) && s in w.p.ends && d in w.p.ends && ForwardCheck(w, s, d) == Ok && !NothingToJoin(w.p, s, d)
    && w.p.ends[s].peer in w.p.ends && w.p.ends[d].peer in w.p.ends
    && w.p.ends[w.p.ends[s].peer].available in w.p.bufs && w.p.ends[w.p.ends[d].peer].available in w.p.bufs
    && w.p.ends[w.p.ends[s].peer].available != NULL && w.p.ends[w.p.ends[d].peer].available != NULL
  }

  lemma {:induction false} SpliceMoves(p: Pairs, r: Ref, x: Ref, plan: Splice)
    requires Closed(p) && r in p.ends && x in p.ends && SplicePlan(p, r, x) == Some(plan)
    requires p.ends[r].available != NULL && p.ends[x].available != NULL
    ensures var rb, wb := p.bufs[p.ends[r].available], p.bufs[p.ends[x].available];
            && rb.progress <= rb.length && wb.progress <= wb.length
            && (rb.progress < rb.length && wb.progress < wb.length ==>
                 && 0 < plan.count && rb.progress + plan.count <= rb.length && wb.progress + plan.count <= wb.length
                 && (plan.readDone <==> rb.progress + plan.count == rb.length)
                 && (plan.writeDone <==> wb.progress + plan.count == wb.length)
                 && (plan.readDone || plan.writeDone)
                 && plan.read.pending && plan.read.progress == rb.progress + plan.count
                 && plan.write.pending && plan.write.progress == wb.progress + plan.count)
            && (wb.progress == wb.length ==>
                 && plan.count == 0 && !plan.readDone && plan.writeDone && plan.read == p.ends[r].state
                 && plan.write.pending && plan.write.progress == 0)
            && (rb.progress == rb.length && wb.progress < wb.length ==>
                 && plan.count == 0 && plan.readDone && !plan.writeDone && plan.write == p.ends[x].state
                 && plan.read.pending && plan.read.progress == 0)
  {
    hide Closed;
  }

  /** The surviving operation of `x` after a join: its event is there, and it
      stays open to its new peer exactly if it still has room. */
  ghost predicate Carried(q: Pairs, x: Ref, b: Ref) {
    && x in q.ends && b in q.bufs && q.ends[x].operation == b && q.ends[x].state.pending
    && q.ends[x].state.progress == q.bufs[b].progress
    && (q.ends[x].available == b <==> q.bufs[b].progress < q.bufs[b].length)
    && (q.ends[x].available == NULL <==> q.bufs[b].progress == q.bufs[b].length)
  }

  /** What joining the reader `r` and the writer `x` does to their operations. */
  ghost predicate Met(p: Pairs, q: Pairs, r: Ref, x: Ref)
    requires Closed(p) && r in p.ends && x in p.ends && p.ends[r].available != NULL && p.ends[x].available != NULL
  {
    var rb, wb := p.ends[r].available, p.ends[x].available;
    var readerRoom, writerRoom := p.bufs[rb].length != 0, p.bufs[wb].length != 0;
    && q.bufs.Keys == p.bufs.Keys && r in q.ends && x in q.ends
    && (readerRoom && writerRoom ==>
         && q.bufs[rb].progress >= p.bufs[rb].progress
         && Filled(p, q, rb, p.bufs[rb].progress, wb, q.bufs[rb].progress - p.bufs[rb].progress)
         && Carried(q, r, rb) && Carried(q, x, wb))
    && (!writerRoom ==>
         q.bufs == p.bufs && Completed(q, x, 0) && q.ends[r] == p.ends[r].(peer := x))
    && (!readerRoom && writerRoom ==>
         q.bufs == p.bufs && Completed(q, r, 0) && q.ends[x] == p.ends[x].(peer := r))
  }

  lemma {:induction false} SplicedMeet(p: Pairs, q: Pairs, s: Ref, d: Ref, r: Ref, x: Ref, plan: Splice)
    requires Closed(p) && FourEnds(p, s, d, r, x) && SplicePlan(p, r, x) == Some(plan)
    requires p.ends[r].available != NULL && p.ends[x].available != NULL
    requires p.ends[r].available == p.ends[r].operation != p.ends[x].operation == p.ends[x].available
    requires var b := p.bufs[p.ends[r].available]; b.progress < b.length || b.length == 0
    requires var b := p.bufs[p.ends[x].available]; b.progress < b.length || b.length == 0
    requires SpliceBufs(p, q, r, x, plan.count, Ok)
    requires FourChanged(p, q, s, d, r, SplicedEnd(p.ends[r], x, plan.read, plan.readDone), x,
               SplicedEnd(p.ends[x], r, plan.write, plan.writeDone))
    ensures Met(p, q, r, x)
  {
    hide SplicePlan;
    SpliceMoves(p, r, x, plan);
    hide Closed;
  }

  /** A forward that succeeds lets the operations it joins meet: with room on
      both sides the same number of elements goes through both, until one of
      them is used up; an empty write completes before the reader, which waits
      on undisturbed; otherwise an empty read completes and the writer waits. */
  lemma {:induction false} ForwardMeets(w: World, s: Ref, d: Ref, f: Faults)
    requires JoinsTwo(w, s, d)
    ensures Closed(w.p)
    ensures var (v, status) := Forward(w, s, d, f); status == Ok ==> Met(w.p, v.p, w.p.ends[d].peer, w.p.ends[s].peer)
  {
    hide PairInv, Conserved, HomeInv, OwnersInv, EachOwnOk, ForwardCheck, NothingToJoin, SplicePairs, SplicePlan;
    hide CanSplice, CanForward, Unregister, Note, Shift, HeldAtRest, Met, SpliceBufs, SpliceRefused, FourEnds;
    PairClosed(w.p);
    ForwardChecked(w, s, d);
    SplicedFits(w, s, d, f);
    var r, x := w.p.ends[d].peer, w.p.ends[s].peer;
    var plan := SplicePlan(w.p, r, x).value;
    ForwardFour(w.p, s, d);
    SplicePlanOf(w.p, s, d, plan);
    hide Transferable;
    SplicePairsEnds(w.p, s, d, r, x, plan, f);
    SplicePairsBufs(w.p, s, d, r, x, plan, f);
    JoinedOperations(w.p, s, d);
    if Forward(w, s, d, f).1 == Ok {
      SplicedMeet(w.p, SplicePairs(w.p, s, d, plan, f).0, s, d, r, x, plan);
    }
  }

  /** The two waiting operations of a join are distinct, and in progress. */
  lemma {:induction false} JoinedOperations(p: Pairs, s: Ref, d: Ref)
    requires CanForward(p, s, d) && FourEnds(p, s, d, p.ends[d].peer, p.ends[s].peer)
    requires p.ends[p.ends[d].peer].available != NULL && p.ends[p.ends[s].peer].available != NULL
    ensures Closed(p)
    ensures var R, X := p.ends[p.ends[d].peer], p.ends[p.ends[s].peer];
            && R.available == R.operation != X.operation == X.available
            && (p.bufs[R.available].progress < p.bufs[R.available].length || p.bufs[R.available].length == 0)
            && (p.bufs[X.available].progress < p.bufs[X.available].length || p.bufs[X.available].length == 0)
  {
    PairClosed(p);
    WaitingPeer(p, d);
    WaitingPeer(p, s);
    hide EndsOk, LinksOk, OperationsOk, LeasesHeld, Closed;
  }
}
