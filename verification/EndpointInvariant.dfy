/**
  The pair invariant is kept by every endpoint operation.
 */
module EndpointInvariant {
  import opened Common
  import opened AsyncState
  import opened EndpointModel

  // ---------------------------------------------------------------- framing

  ghost predicate SameShape(p: Pairs, q: Pairs) {
    && q.ends.Keys == p.ends.Keys && q.bufs.Keys == p.bufs.Keys && q.cells.Keys == p.cells.Keys
    && (forall b :: b in p.bufs ==> q.bufs[b].values == p.bufs[b].values && q.bufs[b].capacity == p.bufs[b].capacity)
    && (forall a :: a in p.cells ==> |q.cells[a]| == |p.cells[a]|)
  }

  /** The ends of `m` were only linked among themselves, and still are. */
  ghost predicate LinkStep(p: Pairs, m: map<Ref, End>, x: Ref)
    requires x in m && x in p.ends
  {
    && (p.ends[x].peer != NULL ==> p.ends[x].peer in m)
    && (m[x].peer != NULL ==> m[x].peer in m && m[x].peer != x && m[m[x].peer].peer == x && LinkOk(m[x], m[m[x].peer]))
  }

  /** `x`, holding `X` afterwards, keeps, returns or newly lends its buffer. */
  ghost predicate OperationStep(p: Pairs, q: Pairs, x: Ref, X: End)
    requires x in p.ends
  {
    && (X.operation != NULL ==>
          X.operation in p.bufs && X.operation in q.bufs && OperationOk(X, q.bufs[X.operation]) &&
          (X.operation == p.ends[x].operation || !p.bufs[X.operation].leased))
    && (p.ends[x].operation != NULL && p.ends[x].operation != X.operation ==>
          p.ends[x].operation in q.bufs && !q.bufs[p.ends[x].operation].leased)
  }

  ghost predicate BufferOf(p: Pairs, m: map<Ref, End>, b: Ref)
    requires m.Keys <= p.ends.Keys
  {
    exists x :: x in m && (m[x].operation == b || p.ends[x].operation == b)
  }

  /** `q` replaces the ends `m` of `p` and the buffers they operate on. */
  ghost predicate Put(p: Pairs, q: Pairs, m: map<Ref, End>) {
    && m.Keys <= p.ends.Keys && SameShape(p, q)
    && (forall x :: x in p.ends ==> q.ends[x] == if x in m then m[x] else p.ends[x])
    && (forall x :: x in m ==> EndOk(m[x]))
    && (forall x :: x in m ==> LinkStep(p, m, x))
    && (forall x :: x in m ==> OperationStep(p, q, x, m[x]))
    && (forall x, y :: x in m && y in m && x != y && m[x].operation != NULL ==> m[x].operation != m[y].operation)
    && (forall b :: b in p.bufs && !BufferOf(p, m, b) ==> q.bufs[b] == p.bufs[b])
  }

  /** The buffers of the other ends are not affected. */
  ghost predicate OthersKept(p: Pairs, q: Pairs, m: map<Ref, End>) {
    forall x :: x in p.ends && x !in m && p.ends[x].operation != NULL ==>
      && (forall y :: y in m ==> p.ends[x].operation != m[y].operation)
      && p.ends[x].operation in p.bufs && p.ends[x].operation in q.bufs
      && q.bufs[p.ends[x].operation] == p.bufs[p.ends[x].operation]
  }

  /** An end outside `m` shares no buffer with the ends of `m`. */
  lemma {:induction false} PutOther(p: Pairs, q: Pairs, m: map<Ref, End>, x: Ref)
    requires OperationsOk(p) && Unshared(p) && m.Keys <= p.ends.Keys
    requires (forall y :: y in m ==> OperationStep(p, q, y, m[y]))
    requires x in p.ends && x !in m && p.ends[x].operation != NULL
    ensures p.ends[x].operation in p.bufs && p.bufs[p.ends[x].operation].leased
    ensures forall y :: y in m ==> p.ends[x].operation != m[y].operation
    ensures !BufferOf(p, m, p.ends[x].operation)
  {
    var b := p.ends[x].operation;
    assert OperationOk(p.ends[x], p.bufs[b]);
    hide OperationsOk, OperationOk;
    forall y | y in m
      ensures m[y].operation != b && p.ends[y].operation != b
    {
      assert OperationStep(p, q, y, m[y]);
    }
  }

  lemma {:induction false} PutOthers(p: Pairs, q: Pairs, m: map<Ref, End>)
    requires PairInv(p) && Put(p, q, m)
    ensures OthersKept(p, q, m)
  {
    hide EndOk, LinkOk, LinkStep, LinksOk, OperationStep, OperationsOk, Unshared, LeasesHeld, Closed, BufferOf;
    forall x | x in p.ends && x !in m && p.ends[x].operation != NULL
      ensures p.ends[x].operation in p.bufs && p.bufs[p.ends[x].operation].leased
      ensures forall y :: y in m ==> p.ends[x].operation != m[y].operation
      ensures !BufferOf(p, m, p.ends[x].operation)
    {
      PutOther(p, q, m, x);
    }
  }

  lemma {:induction false} PutOperations(p: Pairs, q: Pairs, m: map<Ref, End>)
    requires PairInv(p) && Put(p, q, m)
    ensures OperationsOk(q)
  {
    assert OthersKept(p, q, m) by {
      hide *;
      PutOthers(p, q, m);
    }
    hide EndOk, LinkOk, OperationOk, LinkStep, LinksOk, Unshared, LeasesHeld;
    forall x | x in q.ends && q.ends[x].operation != NULL
      ensures q.ends[x].operation in q.bufs && OperationOk(q.ends[x], q.bufs[q.ends[x].operation])
    {
      if x in m {
        assert OperationStep(p, q, x, m[x]);
      }
    }
  }

  lemma {:induction false} PutLinks(p: Pairs, q: Pairs, m: map<Ref, End>)
    requires PairInv(p) && Put(p, q, m)
    ensures LinksOk(q)
  {
    assert NULL !in p.ends;
    hide EndOk, LinkOk, OperationStep, BufferOf, Closed, Unshared, LeasesHeld, OperationsOk, EndsOk;
    forall x | x in q.ends && q.ends[x].peer != NULL
      ensures q.ends[x].peer in q.ends && q.ends[x].peer != x && q.ends[q.ends[x].peer].peer == x
      ensures LinkOk(q.ends[x], q.ends[q.ends[x].peer])
    {
      if x in m {
        assert LinkStep(p, m, x);
      } else {
        assert p.ends[x].peer !in m;
      }
    }
  }

  lemma {:induction false} PutUnshared(p: Pairs, q: Pairs, m: map<Ref, End>)
    requires PairInv(p) && Put(p, q, m)
    ensures Unshared(q)
  {
    assert OthersKept(p, q, m) by {
      hide *;
      PutOthers(p, q, m);
    }
    hide EndOk, LinkOk, OperationOk, LinkStep, LinksOk, OperationsOk, LeasesHeld, EndsOk, Closed, OperationStep;
    hide BufferOf;
    forall x, y | x in q.ends && y in q.ends && x != y && q.ends[x].operation != NULL
      ensures q.ends[x].operation != q.ends[y].operation
    {
    }
  }

  lemma {:induction false} PutLeasesHeld(p: Pairs, q: Pairs, m: map<Ref, End>)
    requires PairInv(p) && Put(p, q, m)
    ensures LeasesHeld(q)
  {
    hide EndOk, LinkOk, OperationOk, LinkStep, LinksOk, OperationsOk, Unshared, EndsOk;
    forall b | b in q.bufs && q.bufs[b].leased
      ensures exists x :: x in q.ends && q.ends[x].operation == b
    {
      if BufferOf(p, m, b) {
        var x :| x in m && (m[x].operation == b || p.ends[x].operation == b);
        assert OperationStep(p, q, x, m[x]);
        assert q.ends[x].operation == b;
      } else {
        var x :| x in p.ends && p.ends[x].operation == b;
        assert q.ends[x].operation == b;
      }
    }
  }

  lemma {:induction false} PutEnds(p: Pairs, q: Pairs, m: map<Ref, End>)
    requires EndsOk(p) && Put(p, q, m)
    ensures EndsOk(q)
  {
    hide EndOk, LinkOk, OperationOk, LinkStep, OperationStep, BufferOf;
    forall x | x in q.ends
      ensures EndOk(q.ends[x])
    {
    }
  }

  lemma {:induction false} PutClosed(p: Pairs, q: Pairs, m: map<Ref, End>)
    requires PairInv(p) && Put(p, q, m)
    ensures Closed(q)
  {
    hide LinkOk, OperationOk, LinksOk, OperationsOk, Unshared, EndsOk, LeasesHeld, BufferOf;
    forall x | x in q.ends
      ensures q.ends[x].peer != NULL ==> q.ends[x].peer in q.ends
      ensures q.ends[x].operation != NULL ==> q.ends[x].operation in q.bufs
      ensures q.ends[x].available != NULL ==> q.ends[x].available in q.bufs
    {
      if x in m {
        assert LinkStep(p, m, x) && OperationStep(p, q, x, m[x]) && EndOk(m[x]);
      }
    }
  }

  lemma {:induction false} PutKeeps(p: Pairs, q: Pairs, m: map<Ref, End>)
    requires PairInv(p) && Put(p, q, m)
    ensures PairInv(q)
  {
    hide Put, Closed, EndsOk, OperationsOk, LinksOk, Unshared, LeasesHeld;
    PutClosed(p, q, m);
    PutEnds(p, q, m);
    PutOperations(p, q, m);
    PutLinks(p, q, m);
    PutUnshared(p, q, m);
    PutLeasesHeld(p, q, m);
  }

  /** In `p`, the ends `e` and `f` have no link to a third end. */
  ghost predicate ClosedPair(p: Pairs, e: Ref, f: Ref) {
    && e in p.ends && f in p.ends
    && (p.ends[e].peer == NULL || p.ends[e].peer == f) && (p.ends[f].peer == NULL || p.ends[f].peer == e)
  }

  /** `e` and `f`, now `E` and `F`, are linked to each other or to nobody. */
  predicate LinkedPair(e: Ref, E: End, f: Ref, F: End) {
    && (E.peer != NULL ==> e != f && E.peer == f && F.peer == e && LinkOk(E, F))
    && (F.peer != NULL ==> e != f && F.peer == e && E.peer == f && LinkOk(F, E))
  }

  /** Only the ends `e` and `f` changed. */
  ghost predicate TwoEnds(p: Pairs, q: Pairs, e: Ref, E: End, f: Ref, F: End) {
    && e in p.ends && f in p.ends && q.ends.Keys == p.ends.Keys
    && q.ends[e] == E && q.ends[f] == F
    && (forall x :: x in p.ends && x != e && x != f ==> q.ends[x] == p.ends[x])
  }

  /** `q` replaces two ends that have no links to others. */
  ghost predicate PutTwo(p: Pairs, q: Pairs, e: Ref, E: End, f: Ref, F: End) {
    && ClosedPair(p, e, f) && SameShape(p, q) && (e == f ==> E == F)
    && TwoEnds(p, q, e, E, f, F)
    && EndOk(E) && EndOk(F) && LinkedPair(e, E, f, F)
    && OperationStep(p, q, e, E) && OperationStep(p, q, f, F)
    && (e != f && E.operation != NULL ==> E.operation != F.operation)
    && (forall b :: b in p.bufs && b != E.operation && b != F.operation && b != p.ends[e].operation &&
                    b != p.ends[f].operation ==>
          q.bufs[b] == p.bufs[b])
  }

  lemma {:induction false} PutTwoKeeps(p: Pairs, q: Pairs, e: Ref, E: End, f: Ref, F: End)
    requires PairInv(p) && PutTwo(p, q, e, E, f, F)
    ensures PairInv(q)
  {
    var m := map[e := E][f := F];
    assert Put(p, q, m) by {
      hide EndOk, LinkOk, OperationStep, SameShape, LinksOk, OperationsOk, Unshared, LeasesHeld, EndsOk, Closed;
      assert m.Keys == {e, f};
      forall b | b in p.bufs && !BufferOf(p, m, b)
        ensures q.bufs.Keys == p.bufs.Keys ==> q.bufs[b] == p.bufs[b]
      {
        assert e in m && f in m;
      }
      assert LinkStep(p, m, e) && LinkStep(p, m, f);
    }
    hide *;
    PutKeeps(p, q, m);
  }

  // ---------------------------------------------------------------- submit

  /** A copy only advances the two progress counters, by the whole batch or not
      at all, and advances both if it succeeds. */
  lemma {:induction false} CopyShape(src: Buf, dst: Buf, sc: seq<Cell>, dc: seq<Cell>, hasPayload: bool, count: nat,
      f: Faults)
    requires CanCopy(src, dst, sc, dc, hasPayload, count)
    ensures var out := BufferCopy(src, dst, sc, dc, hasPayload, count, f);
            && (out.src == src || out.src == src.(progress := src.progress + count))
            && (out.dst == dst || out.dst == dst.(progress := dst.progress + count))
            && (out.status == Ok ==>
                 out.src.progress == src.progress + count && out.dst.progress == dst.progress + count)
            && (out.status == Ok ==> |out.batch| == count)
  {
  }

  /** The buffer `v` after a transfer. */
  predicate Advanced(v: Buf, v': Buf, count: nat, status: Status) {
    && v' == v.(progress := v'.progress, moved := v'.moved)
    && (v'.progress == v.progress || v'.progress == v.progress + count)
    && (status == Ok ==> v'.progress == v.progress + count)
  }

  ghost predicate Transferable(p: Pairs, reader: Ref, writer: Ref, count: nat) {
    && Closed(p) && CanTransfer(p, reader, writer, count)
    && p.ends[reader].state.phase.Copying? && p.ends[writer].state.phase.Copying?
  }

  /** Only the buffers `x` and `y` changed, by a transfer of `count`. */
  ghost predicate BufsStep(p: Pairs, q: Pairs, x: Ref, y: Ref, count: nat, status: Status) {
    && x in p.bufs && y in p.bufs && q.bufs.Keys == p.bufs.Keys
    && (forall b :: b in p.bufs && b != x && b != y ==> q.bufs[b] == p.bufs[b])
    && Advanced(p.bufs[x], q.bufs[x], count, status) && Advanced(p.bufs[y], q.bufs[y], count, status)
  }

  lemma {:induction false} BufsStepSym(p: Pairs, q: Pairs, x: Ref, y: Ref, count: nat, status: Status)
    requires BufsStep(p, q, x, y, count, status)
    ensures BufsStep(p, q, y, x, count, status)
  {
    hide Advanced;
  }

  lemma {:induction false} SameShapeTrans(p: Pairs, q: Pairs, r: Pairs)
    requires SameShape(p, q) && SameShape(q, r)
    ensures SameShape(p, r)
  {
  }

  lemma {:induction false} TransferMoved(p: Pairs, reader: Ref, writer: Ref, count: nat, f: Faults)
    requires CanTransfer(p, reader, writer, count)
    ensures var q := TransferBuffers(p, reader, writer, count, f).0;
            var m := Moved(p, p.ends[reader].operation, p.ends[writer].operation, Copied(p, reader, writer, count, f));
            q.bufs == m.bufs && q.cells == m.cells
  {
    hide Copied, Moved;
  }

  lemma {:induction false} MovedBufs(p: Pairs, rb: Ref, wb: Ref, out: CopyOut, count: nat, status: Status)
    requires rb in p.bufs && wb in p.bufs && rb != wb && (status == Ok <==> out.status == Ok)
    requires Advanced(p.bufs[rb], out.dst, count, out.status) && Advanced(p.bufs[wb], out.src, count, out.status)
    ensures BufsStep(p, Moved(p, rb, wb, out), rb, wb, count, status)
  {
  }

  /** What a transfer does to the buffers ... */
  lemma {:induction false} TransferBufs(p: Pairs, reader: Ref, writer: Ref, count: nat, f: Faults)
    requires Transferable(p, reader, writer, count)
    ensures var (q, status) := TransferBuffers(p, reader, writer, count, f);
            var rb, wb := p.ends[reader].operation, p.ends[writer].operation;
            BufsStep(p, q, rb, wb, count, status)
  {
    var src, dst := p.bufs[p.ends[writer].operation], p.bufs[p.ends[reader].operation];
    CopyShape(src, dst, p.cells[src.values], p.cells[dst.values], p.ends[reader].ty.hasPayload, count, f);
    TransferMoved(p, reader, writer, count, f);
    TransferEnds(p, reader, writer, count, f);
    var out := Copied(p, reader, writer, count, f);
    hide BufferCopy, TransferBuffers;
    MovedBufs(p, p.ends[reader].operation, p.ends[writer].operation, out, count, out.status);
    hide Moved, Copied, Advanced, TwoEnds;
  }

  /** ... to the cells ... */
  lemma {:induction false} TransferCells(p: Pairs, reader: Ref, writer: Ref, count: nat, f: Faults)
    requires Transferable(p, reader, writer, count)
    ensures var q := TransferBuffers(p, reader, writer, count, f).0;
            q.cells.Keys == p.cells.Keys && forall a :: a in p.cells ==> |q.cells[a]| == |p.cells[a]|
  {
    var src, dst := p.bufs[p.ends[writer].operation], p.bufs[p.ends[reader].operation];
    CopyShape(src, dst, p.cells[src.values], p.cells[dst.values], p.ends[reader].ty.hasPayload, count, f);
    TransferMoved(p, reader, writer, count, f);
    hide BufferCopy, TransferBuffers;
  }

  lemma {:induction false} TransferShape(p: Pairs, reader: Ref, writer: Ref, count: nat, f: Faults)
    requires Transferable(p, reader, writer, count)
    ensures SameShape(p, TransferBuffers(p, reader, writer, count, f).0)
  {
    TransferBufs(p, reader, writer, count, f);
    TransferCells(p, reader, writer, count, f);
    TransferEnds(p, reader, writer, count, f);
    hide TransferBuffers, Transferable, Fail;
  }

  /** ... and to the ends. */
  lemma {:induction false} TransferEnds(p: Pairs, reader: Ref, writer: Ref, count: nat, f: Faults)
    requires Transferable(p, reader, writer, count)
    ensures var (q, status) := TransferBuffers(p, reader, writer, count, f);
            && (status == Ok ==> q.ends == p.ends)
            && (status != Ok ==>
                 TwoEnds(p, q, reader, Fail(p.ends[reader], status), writer, Fail(p.ends[writer], status)))
            && status == Copied(p, reader, writer, count, f).status
  {
    hide BufferCopy;
  }

  /** A submission with a linked peer always has a plan, and the planned states
      fit the invariant. `v` is the submitted buffer, `o` the peer's waiting one. */
  lemma {:induction false} PlanFits(E: End, P: End, b: Ref, v: Buf, o: Buf)
    requires EndOk(E) && EndOk(P) && LinkOk(E, P) && LinkOk(P, E) && E.peer != NULL && P.peer != NULL
    requires E.failure == Ok && E.state.phase.Idle? && b != NULL
    requires v.length <= COPY_MAX_LENGTH && (E.state.future ==> v.length == 1)
    requires (E.ty.hasPayload ==> v.length <= v.capacity)
    requires P.available != NULL ==> OperationOk(P, o)
    ensures PlanSubmit(E, v.length, Some(P.state), if P.available == NULL then None else Some(o)).Some?
    ensures var plan := PlanSubmit(E, v.length, Some(P.state), if P.available == NULL then None else Some(o)).value;
            var E', P' := AdmittedEnd(E, b, plan), AdmittedPeer(P, plan);
            && EndOk(E') && EndOk(P') && LinkOk(E', P') && LinkOk(P', E')
            && OperationOk(E', v.(progress := plan.count, leased := true))
            && (P.available != NULL ==> OperationOk(P', o.(progress := o.progress + plan.count)))
            && (P.available == NULL ==> P' == P && plan.count == 0)
            && (plan.count != 0 ==>
                 P.available != NULL && plan.count <= v.length && o.progress + plan.count <= o.length)
  {
  }

  /** A submission to an unlinked end reports the dropped peer. */
  lemma {:induction false} UnlinkedPlanFits(E: End, b: Ref, v: Buf)
    requires EndOk(E) && E.initialized && !E.closed && E.peer == NULL && E.failure == Ok && E.state.phase.Idle?
    requires b != NULL
    requires v.length <= COPY_MAX_LENGTH && (E.state.future ==> v.length == 1)
    requires (E.ty.hasPayload ==> v.length <= v.capacity)
    ensures PlanSubmit(E, v.length, None, None).Some?
    ensures var plan := PlanSubmit(E, v.length, None, None).value;
            plan.count == 0 && EndOk(AdmittedEnd(E, b, plan))
              && OperationOk(AdmittedEnd(E, b, plan), v.(progress := 0, leased := true))
  {
  }

  /** A failed copy leaves an end with an event to deliver. */
  lemma {:induction false} FailFits(E: End, P: End, status: Status)
    requires status != Ok
    requires E.initialized && !E.closed && !P.closed && P.initialized && E.state.future == E.ty.future
    requires E.peer != NULL && E.operation != NULL && !E.state.peerDropped
    requires E.state.phase.Copying? && E.readable != P.readable && E.ty == P.ty
    requires E.state.future ==> E.state.progress <= 1
    ensures EndOk(Fail(E, status)) && LinkOk(Fail(E, status), Fail(P, status))
    ensures Fail(E, status).failure == status && Fail(E, status).available == NULL && Fail(E, status).state.pending
  {
  }

  lemma {:induction false} FailOperation(E: End, status: Status, v: Buf)
    requires status != Ok
    requires v.leased && v.progress <= v.length <= COPY_MAX_LENGTH && (E.ty.hasPayload ==> v.length <= v.capacity)
    requires (E.state.future ==> v.length == 1)
    ensures OperationOk(Fail(E, status), v)
  {
  }

  /** An end that may lend buffer `b`. */
  ghost predicate Admissible(p: Pairs, e: Ref, b: Ref) {
    && PairInv(p) && e in p.ends && b in p.bufs
    && var E, v := p.ends[e], p.bufs[b];
    && E.failure == Ok && E.initialized && !E.closed && E.state.phase.Idle?
    && !v.leased && v.length <= COPY_MAX_LENGTH && (E.state.future ==> v.length == 1)
    && (E.ty.hasPayload ==> v.length <= v.capacity)
  }

  lemma {:induction false} NotOperation(p: Pairs, b: Ref, x: Ref)
    requires Closed(p) && OperationsOk(p) && b in p.bufs && !p.bufs[b].leased && x in p.ends
    ensures p.ends[x].operation != b
  {
  }

  /** The invariant as seen from one end. */
  lemma {:induction false} EndFacts(p: Pairs, e: Ref)
    requires PairInv(p) && e in p.ends
    ensures EndOk(p.ends[e])
    ensures p.ends[e].operation != NULL ==>
              p.ends[e].operation in p.bufs && OperationOk(p.ends[e], p.bufs[p.ends[e].operation])
    ensures p.ends[e].available != NULL ==> p.ends[e].available in p.bufs
    ensures p.ends[e].peer != NULL ==>
              p.ends[e].peer in p.ends && p.ends[e].peer != e && p.ends[p.ends[e].peer].peer == e &&
              LinkOk(p.ends[e], p.ends[p.ends[e].peer]) && LinkOk(p.ends[p.ends[e].peer], p.ends[e])
  {
    hide EndOk, OperationOk, LinkOk;
  }

  lemma {:induction false} BufFacts(p: Pairs, b: Ref)
    requires Closed(p) && b in p.bufs
    ensures p.bufs[b].values in p.cells && |p.cells[p.bufs[b].values]| == p.bufs[b].capacity
  {
  }

  /** A plan for an unlinked end exists and can be carried out. */
  lemma {:induction false} UnlinkedPlan(p: Pairs, e: Ref, b: Ref)
    requires Admissible(p, e, b) && p.ends[e].peer == NULL
    ensures SubmitPlan(p, e, b).Some? && SubmitPlan(p, e, b).value.count == 0
    ensures CanAdmit(p, e, b, SubmitPlan(p, e, b).value)
    ensures p.ends[e].operation == NULL
    ensures var E' := AdmittedEnd(p.ends[e], b, SubmitPlan(p, e, b).value);
            EndOk(E') && OperationOk(E', p.bufs[b].(progress := 0, leased := true))
  {
    EndFacts(p, e);
    BufFacts(p, b);
    UnlinkedPlanFits(p.ends[e], b, p.bufs[b]);
    hide Closed, LinksOk, OperationsOk, Unshared, LeasesHeld, EndsOk, PlanSubmit, EndOk, OperationOk;
  }

  lemma {:induction false} AdmitUnlinkedPut(p: Pairs, e: Ref, b: Ref, plan: Plan, f: Faults)
    requires Closed(p) && CanAdmit(p, e, b, plan) && plan.count == 0 && !p.bufs[b].leased
    requires p.ends[e].peer == NULL && p.ends[e].operation == NULL
    requires var E' := AdmittedEnd(p.ends[e], b, plan);
             EndOk(E') && OperationOk(E', p.bufs[b].(progress := 0, leased := true))
    ensures var E' := AdmittedEnd(p.ends[e], b, plan);
            PutTwo(p, Admit(p, e, b, plan, f), e, E', e, E')
  {
    assert OperationOk(AdmittedEnd(p.ends[e], b, plan), LentBuf(p.bufs[b], p.cells[p.bufs[b].values]));
    hide EndOk, OperationOk, LinkOk, Closed;
  }

  lemma {:induction false} AdmitUnlinkedKeeps(p: Pairs, e: Ref, b: Ref, f: Faults)
    requires Admissible(p, e, b) && p.ends[e].peer == NULL
    ensures SubmitPlan(p, e, b).Some? && CanAdmit(p, e, b, SubmitPlan(p, e, b).value)
    ensures PairInv(Admit(p, e, b, SubmitPlan(p, e, b).value, f))
  {
    UnlinkedPlan(p, e, b);
    var plan := SubmitPlan(p, e, b).value;
    var E' := AdmittedEnd(p.ends[e], b, plan);
    hide PutTwo, Admit, EndOk, OperationOk, SubmitPlan, AdmittedEnd, CanAdmit, Closed, LinksOk, OperationsOk, Unshared;
    hide LeasesHeld, EndsOk;
    AdmitUnlinkedPut(p, e, b, plan, f);
    PutTwoKeeps(p, Admit(p, e, b, plan, f), e, E', e, E');
  }

  /** The facts about a planned submission to a linked end. */
  ghost predicate LinkedPlanFacts(p: Pairs, e: Ref, b: Ref, plan: Plan)
    requires e in p.ends && b in p.bufs
  {
    var E, v := p.ends[e], p.bufs[b];
    && E.peer != NULL && E.peer in p.ends && E.peer != e
    && var P := p.ends[E.peer];
    && var E', P' := AdmittedEnd(E, b, plan), AdmittedPeer(P, plan);
    && P.peer == e && E.operation == NULL && P.operation != b
    && EndOk(E') && EndOk(P') && LinkOk(E', P') && LinkOk(P', E')
    && OperationOk(E', v.(progress := plan.count, leased := true))
    && (P.operation != NULL ==> P.operation in p.bufs)
    && (P.operation != NULL ==>
         OperationOk(P', p.bufs[P.operation].(progress := p.bufs[P.operation].progress + plan.count)))
    && (plan.count != 0 ==> P.state.phase.Copying?)
    && (plan.count != 0 ==>
         P.operation != NULL && plan.count <= v.length
         && p.bufs[P.operation].progress + plan.count <= p.bufs[P.operation].length)
  }

  lemma {:induction false} LinkedPlan(p: Pairs, e: Ref, b: Ref)
    requires Admissible(p, e, b) && p.ends[e].peer != NULL
    ensures SubmitPlan(p, e, b).Some?
    ensures LinkedPlanFacts(p, e, b, SubmitPlan(p, e, b).value)
  {
    EndFacts(p, e);
    var E, v := p.ends[e], p.bufs[b];
    EndFacts(p, E.peer);
    NotOperation(p, b, E.peer);
    var P := p.ends[E.peer];
    hide Closed, LinksOk, OperationsOk, Unshared, LeasesHeld, EndsOk;
    var o := if P.available == NULL then v else p.bufs[P.available];
    PlanFits(E, P, b, v, o);
    assert E.operation == NULL && (P.available == NULL || P.available == P.operation);
    hide PlanSubmit, EndOk, LinkOk;
    if P.available == NULL && P.operation != NULL {
      assert p.bufs[P.operation].(progress := p.bufs[P.operation].progress + 0) == p.bufs[P.operation];
    }
    hide OperationOk;
  }

  lemma {:induction false} LinkedCanAdmit(p: Pairs, e: Ref, b: Ref, plan: Plan)
    requires Closed(p) && e in p.ends && b in p.bufs && LinkedPlanFacts(p, e, b, plan)
    ensures CanAdmit(p, e, b, plan)
  {
    BufFacts(p, b);
    if plan.count != 0 {
      BufFacts(p, p.ends[p.ends[e].peer].operation);
    }
    hide EndOk, Closed;
  }

  lemma {:induction false} AdmitWaitingPut(p: Pairs, e: Ref, b: Ref, plan: Plan, f: Faults)
    requires Closed(p) && e in p.ends && b in p.bufs && LinkedPlanFacts(p, e, b, plan) && CanAdmit(p, e, b, plan)
    requires plan.count == 0 && !p.bufs[b].leased
    ensures var E', P' := AdmittedEnd(p.ends[e], b, plan), AdmittedPeer(p.ends[p.ends[e].peer], plan);
            PutTwo(p, Admit(p, e, b, plan, f), e, E', p.ends[e].peer, P')
  {
    var E, P := p.ends[e], p.ends[p.ends[e].peer];
    var E', P' := AdmittedEnd(E, b, plan), AdmittedPeer(P, plan);
    assert OperationOk(E', LentBuf(p.bufs[b], p.cells[p.bufs[b].values]));
    if P.operation != NULL {
      assert p.bufs[P.operation].(progress := p.bufs[P.operation].progress + 0) == p.bufs[P.operation];
    }
    hide EndOk, OperationOk, LinkOk, Closed;
  }

  /** The snapshot right after lending, and the two ends about to copy. */
  lemma {:induction false} LendTransferable(p: Pairs, e: Ref, b: Ref, plan: Plan)
    requires Closed(p) && e in p.ends && b in p.bufs && LinkedPlanFacts(p, e, b, plan) && CanAdmit(p, e, b, plan)
    requires plan.count != 0
    ensures Transferable(Lend(p, e, b, plan.count), ReaderOf(p, e), WriterOf(p, e), plan.count)
    ensures SameShape(p, Lend(p, e, b, plan.count))
  {
    hide EndOk, OperationOk, LinkOk;
  }

  /** The buffers after a copy between the lent `b` and the peer's `o`. */
  ghost predicate CopyBufs(p: Pairs, q: Pairs, b: Ref, o: Ref, count: nat, status: Status)
    requires b in p.bufs && p.bufs[b].values in p.cells && o in p.bufs
  {
    && SameShape(p, q)
    && (forall x :: x in p.bufs && x != b && x != o ==> q.bufs[x] == p.bufs[x])
    && Advanced(LentBuf(p.bufs[b], p.cells[p.bufs[b].values]), q.bufs[b], count, status)
    && Advanced(p.bufs[o], q.bufs[o], count, status)
  }

  /** How `submit` ends after a copy with outcome `status`. */
  ghost predicate CopyFacts(p: Pairs, q: Pairs, e: Ref, b: Ref, count: nat, status: Status, E: End, P: End)
    requires e in p.ends && b in p.bufs && p.bufs[b].values in p.cells
  {
    && p.ends[e].peer != NULL && p.ends[e].peer in p.ends
    && var o := p.ends[p.ends[e].peer].operation;
    && o != NULL && o in p.bufs
    && CopyBufs(p, q, b, o, count, status)
    && TwoEnds(p, q, e, E, p.ends[e].peer, P)
  }

  ghost function AdmitStatus(p: Pairs, e: Ref, b: Ref, plan: Plan, f: Faults): Status
    requires CanAdmit(p, e, b, plan) && plan.count != 0
  {
    TransferBuffers(Lend(p, e, b, plan.count), ReaderOf(p, e), WriterOf(p, e), plan.count, f).1
  }

  /** The ends and buffers of a submission that is about to copy. */
  ghost predicate CopyReady(p: Pairs, e: Ref, b: Ref, count: nat) {
    && e in p.ends && b in p.bufs && p.bufs[b].values in p.cells && count != 0
    && p.ends[e].peer != NULL && p.ends[e].peer in p.ends && p.ends[e].peer != e
    && p.ends[p.ends[e].peer].operation in p.bufs && p.ends[p.ends[e].peer].operation != b
    && p.ends[p.ends[e].peer].operation != NULL
    && SameShape(p, Lend(p, e, b, count))
    && Transferable(Lend(p, e, b, count), ReaderOf(p, e), WriterOf(p, e), count)
  }

  lemma {:induction false} AdmitCopyReady(p: Pairs, e: Ref, b: Ref, plan: Plan)
    requires Closed(p) && e in p.ends && b in p.bufs && LinkedPlanFacts(p, e, b, plan) && CanAdmit(p, e, b, plan)
    requires plan.count != 0
    ensures CopyReady(p, e, b, plan.count)
  {
    LendTransferable(p, e, b, plan);
    hide EndOk, OperationOk, LinkOk, Lend, SameShape, Transferable, Closed;
  }

  lemma {:induction false} AdmitCopyBufs(p: Pairs, e: Ref, b: Ref, count: nat, f: Faults)
    requires CopyReady(p, e, b, count)
    ensures var (q, status) := TransferBuffers(Lend(p, e, b, count), ReaderOf(p, e), WriterOf(p, e), count, f);
            CopyBufs(p, q, b, p.ends[p.ends[e].peer].operation, count, status)
  {
    var lent, R, W := Lend(p, e, b, count), ReaderOf(p, e), WriterOf(p, e);
    TransferBufs(lent, R, W, count, f);
    TransferShape(lent, R, W, count, f);
    if !p.ends[e].readable {
      var (q, status) := TransferBuffers(lent, R, W, count, f);
      BufsStepSym(lent, q, lent.ends[R].operation, lent.ends[W].operation, count, status);
    }
    SameShapeTrans(p, lent, TransferBuffers(lent, R, W, count, f).0);
    hide TransferBuffers, Transferable, SameShape, Advanced;
  }

  lemma {:induction false} AdmitCopiedFacts(p: Pairs, e: Ref, b: Ref, plan: Plan, f: Faults)
    requires CopyReady(p, e, b, plan.count) && CanAdmit(p, e, b, plan)
    requires AdmitStatus(p, e, b, plan, f) == Ok
    ensures CopyFacts(p, Admit(p, e, b, plan, f), e, b, plan.count, Ok, AdmittedEnd(p.ends[e], b, plan),
              AdmittedPeer(p.ends[p.ends[e].peer], plan))
  {
    hide TransferBuffers, Transferable, CanTransfer, Fail, AdmittedEnd, AdmittedPeer, Advanced;
    var lent, R, W := Lend(p, e, b, plan.count), ReaderOf(p, e), WriterOf(p, e);
    AdmitCopyBufs(p, e, b, plan.count, f);
    TransferEnds(lent, R, W, plan.count, f);
  }

  lemma {:induction false} AdmitFailedFacts(p: Pairs, e: Ref, b: Ref, plan: Plan, f: Faults)
    requires CopyReady(p, e, b, plan.count) && CanAdmit(p, e, b, plan)
    requires AdmitStatus(p, e, b, plan, f) != Ok
    ensures var status := AdmitStatus(p, e, b, plan, f);
            CopyFacts(p, Admit(p, e, b, plan, f), e, b, plan.count, status,
                      Fail(LentEnd(p.ends[e], b, plan.count), status), Fail(p.ends[p.ends[e].peer], status))
  {
    hide TransferBuffers, Transferable, CanTransfer, Fail, AdmittedEnd, AdmittedPeer, Advanced;
    var lent, R, W := Lend(p, e, b, plan.count), ReaderOf(p, e), WriterOf(p, e);
    AdmitCopyBufs(p, e, b, plan.count, f);
    TransferEnds(lent, R, W, plan.count, f);
  }

  lemma {:induction false} AdmitCopiedPut(p: Pairs, q: Pairs, e: Ref, b: Ref, plan: Plan)
    requires Closed(p) && e in p.ends && b in p.bufs && LinkedPlanFacts(p, e, b, plan)
    requires plan.count != 0 && !p.bufs[b].leased
    requires CopyFacts(p, q, e, b, plan.count, Ok, AdmittedEnd(p.ends[e], b, plan),
               AdmittedPeer(p.ends[p.ends[e].peer], plan))
    ensures var E', P' := AdmittedEnd(p.ends[e], b, plan), AdmittedPeer(p.ends[p.ends[e].peer], plan);
            PutTwo(p, q, e, E', p.ends[e].peer, P')
  {
    var E, P := p.ends[e], p.ends[p.ends[e].peer];
    assert OperationOk(AdmittedEnd(E, b, plan), q.bufs[b]);
    assert OperationOk(AdmittedPeer(P, plan), q.bufs[P.operation]);
    hide EndOk, OperationOk, LinkOk, Closed;
  }

  /** Two linked ends that failed together. */
  predicate FailedLink(E: End, P: End) {
    EndOk(E) && EndOk(P) && LinkOk(E, P) && LinkOk(P, E)
  }

  lemma {:induction false} AdmitFailedPut(p: Pairs, q: Pairs, e: Ref, b: Ref, plan: Plan, status: Status)
    requires Closed(p) && e in p.ends && b in p.bufs && LinkedPlanFacts(p, e, b, plan)
    requires plan.count != 0 && !p.bufs[b].leased && status != Ok
    requires var E, P := Fail(LentEnd(p.ends[e], b, plan.count), status), Fail(p.ends[p.ends[e].peer], status);
             CopyFacts(p, q, e, b, plan.count, status, E, P) && FailedLink(E, P)
    ensures var E, P := Fail(LentEnd(p.ends[e], b, plan.count), status), Fail(p.ends[p.ends[e].peer], status);
            PutTwo(p, q, e, E, p.ends[e].peer, P)
  {
    var E, P := LentEnd(p.ends[e], b, plan.count), p.ends[p.ends[e].peer];
    FailOperation(E, status, q.bufs[b]);
    FailOperation(P, status, q.bufs[P.operation]);
    hide EndOk, OperationOk, LinkOk, Closed, CancelRequested;
  }

  lemma {:induction false} FailedLinkFits(E: End, P: End, b: Ref, count: nat, status: Status)
    requires status != Ok && count != 0 && b != NULL
    requires EndOk(E) && EndOk(P) && LinkOk(E, P) && LinkOk(P, E) && E.peer != NULL && P.peer != NULL
    requires P.operation != NULL && P.state.phase.Copying?
    ensures FailedLink(Fail(LentEnd(E, b, count), status), Fail(P, status))
  {
    FailFits(LentEnd(E, b, count), P, status);
    FailFits(P, LentEnd(E, b, count), status);
    hide Fail, LinkOk;
  }

  lemma {:induction false} AdmitLinkedKeeps(p: Pairs, e: Ref, b: Ref, plan: Plan, f: Faults)
    requires Admissible(p, e, b) && p.ends[e].peer != NULL && SubmitPlan(p, e, b) == Some(plan)
    ensures CanAdmit(p, e, b, plan) && PairInv(Admit(p, e, b, plan, f))
  {
    LinkedPlan(p, e, b);
    LinkedCanAdmit(p, e, b, plan);
    EndFacts(p, e);
    EndFacts(p, p.ends[e].peer);
    var peer, q := p.ends[e].peer, Admit(p, e, b, plan, f);
    var E, P := p.ends[e], p.ends[peer];
    assert b != NULL;
    hide Closed, LinksOk, OperationsOk, Unshared, LeasesHeld, EndsOk, SubmitPlan, PlanSubmit;
    hide Admit, PutTwo, CopyFacts, CopyReady, EndOk, LinkOk, OperationOk, Fail, AdmittedEnd, AdmittedPeer, AdmitStatus;
    hide CanAdmit, FailedLink, LentEnd;
    if plan.count == 0 {
      AdmitWaitingPut(p, e, b, plan, f);
      PutTwoKeeps(p, q, e, AdmittedEnd(E, b, plan), peer, AdmittedPeer(P, plan));
    } else {
      AdmitCopyReady(p, e, b, plan);
      var status := AdmitStatus(p, e, b, plan, f);
      if status == Ok {
        AdmitCopiedFacts(p, e, b, plan, f);
        AdmitCopiedPut(p, q, e, b, plan);
        PutTwoKeeps(p, q, e, AdmittedEnd(E, b, plan), peer, AdmittedPeer(P, plan));
      } else {
        AdmitFailedFacts(p, e, b, plan, f);
        FailedLinkFits(E, P, b, plan.count, status);
        AdmitFailedPut(p, q, e, b, plan, status);
        PutTwoKeeps(p, q, e, Fail(LentEnd(E, b, plan.count), status), peer, Fail(P, status));
      }
    }
  }

  // ---------------------------------------------------------------- take, cancel, close

  lemma {:induction false} ReleaseFits(E: End, moved: seq<Cell>)
    requires EndOk(E) && E.initialized && !E.closed && Delivered(E.state).Some?
    ensures var E' := ReleasedEnd(E, Delivered(E.state).value.state, moved);
            EndOk(E') && (E.operation == NULL ==> moved == [] ==> E'.hist == E.hist)
  {
  }

  /** An idle or finished end with something to deliver always can. */
  lemma {:induction false} DeliveryExists(E: End)
    requires EndOk(E) && E.initialized && !E.closed && E.state.pending
    ensures Delivered(E.state).Some?
  {
  }

  lemma {:induction false} ReleaseLinkFits(E: End, P: End, moved: seq<Cell>)
    requires LinkOk(E, P) && LinkOk(P, E) && Delivered(E.state).Some?
    ensures var E' := ReleasedEnd(E, Delivered(E.state).value.state, moved);
            LinkOk(E', P) && LinkOk(P, E')
  {
  }

  /** The other end of `e`, or `e` itself if it is unlinked. */
  ghost function Other(p: Pairs, e: Ref): (f: Ref)
    requires e in p.ends
  {
    if p.ends[e].peer == NULL then e else p.ends[e].peer
  }

  lemma {:induction false} ReleasePut(p: Pairs, e: Ref)
    requires Closed(p) && e in p.ends && Delivered(p.ends[e].state).Some?
    requires EndOk(p.ends[e]) && p.ends[e].initialized && !p.ends[e].closed
    requires p.ends[e].peer == NULL
    ensures var q := Release(p, e, Delivered(p.ends[e].state).value.state);
            PutTwo(p, q, e, q.ends[e], e, q.ends[e])
  {
    var E := p.ends[e];
    ReleaseFits(E, if E.operation == NULL then [] else p.bufs[E.operation].moved);
    hide EndOk, LinkOk, OperationOk, Delivered;
  }

  lemma {:induction false} ReleaseLinkedPut(p: Pairs, e: Ref)
    requires Closed(p) && e in p.ends && Delivered(p.ends[e].state).Some?
    requires EndOk(p.ends[e]) && p.ends[e].initialized && !p.ends[e].closed
    requires var f := p.ends[e].peer;
             && f != NULL && f in p.ends && f != e && p.ends[f].peer == e && EndOk(p.ends[f])
             && LinkOk(p.ends[e], p.ends[f]) && LinkOk(p.ends[f], p.ends[e])
             && (p.ends[e].operation != NULL ==> p.ends[f].operation != p.ends[e].operation)
             && (p.ends[f].operation != NULL ==>
                  p.ends[f].operation in p.bufs && OperationOk(p.ends[f], p.bufs[p.ends[f].operation]))
    ensures var q := Release(p, e, Delivered(p.ends[e].state).value.state);
            PutTwo(p, q, e, q.ends[e], p.ends[e].peer, p.ends[p.ends[e].peer])
  {
    var E := p.ends[e];
    var moved := if E.operation == NULL then [] else p.bufs[E.operation].moved;
    ReleaseFits(E, moved);
    ReleaseLinkFits(E, p.ends[E.peer], moved);
    hide EndOk, LinkOk, OperationOk, Delivered;
  }

  lemma {:induction false} ReleaseKeeps(p: Pairs, e: Ref)
    requires PairInv(p) && e in p.ends && p.ends[e].initialized && !p.ends[e].closed && Delivered(p.ends[e].state).Some?
    ensures PairInv(Release(p, e, Delivered(p.ends[e].state).value.state))
  {
    EndFacts(p, e);
    var f := p.ends[e].peer;
    var q := Release(p, e, Delivered(p.ends[e].state).value.state);
    if f == NULL {
      hide Release, PutTwo, EndOk, LinkOk, OperationOk, Closed, LinksOk, OperationsOk, Unshared, LeasesHeld, EndsOk;
      hide Delivered;
      ReleasePut(p, e);
      PutTwoKeeps(p, q, e, q.ends[e], e, q.ends[e]);
    } else {
      EndFacts(p, f);
      assert p.ends[e].operation != NULL ==> p.ends[f].operation != p.ends[e].operation;
      hide Release, PutTwo, EndOk, LinkOk, OperationOk, Closed, LinksOk, OperationsOk, Unshared, LeasesHeld, EndsOk;
      hide Delivered;
      ReleaseLinkedPut(p, e);
      PutTwoKeeps(p, q, e, q.ends[e], f, p.ends[f]);
    }
  }

  lemma {:induction false} CancelFits(E: End, v: Buf)
    requires EndOk(E) && E.initialized && !E.closed && CancelRequested(E.state, false).Some? && E.failure == Ok
    requires OperationOk(E, v)
    ensures EndOk(CancelledEnd(E)) && OperationOk(CancelledEnd(E), v)
  {
  }

  lemma {:induction false} CancelLinkFits(E: End, P: End)
    requires LinkOk(E, P) && LinkOk(P, E) && CancelRequested(E.state, false).Some?
    ensures LinkOk(CancelledEnd(E), P) && LinkOk(P, CancelledEnd(E))
  {
  }

  /** Replacing one end in place, with the same operation and the same link. */
  ghost predicate PutOne(p: Pairs, e: Ref, E: End)
    requires Closed(p) && e in p.ends
  {
    && E.peer == p.ends[e].peer && E.operation == p.ends[e].operation && EndOk(E)
    && (E.operation != NULL ==> OperationOk(E, p.bufs[E.operation]))
    && (E.peer != NULL ==> LinkOk(E, p.ends[E.peer]) && LinkOk(p.ends[E.peer], E))
  }

  ghost function OtherEnd(p: Pairs, e: Ref, E: End): End
    requires Closed(p) && e in p.ends
  {
    if p.ends[e].peer == NULL || p.ends[e].peer == e then E else p.ends[p.ends[e].peer]
  }

  lemma {:induction false} PutOnePut(p: Pairs, e: Ref, E: End)
    requires PairInv(p) && e in p.ends && PutOne(p, e, E)
    ensures PutTwo(p, p.(ends := p.ends[e := E]), e, E, Other(p, e), OtherEnd(p, e, E))
  {
    EndFacts(p, e);
    var f := Other(p, e);
    EndFacts(p, f);
    assert f != e && p.ends[e].operation != NULL ==> p.ends[f].operation != p.ends[e].operation;
    hide EndOk, LinkOk, OperationOk, LinksOk, OperationsOk, LeasesHeld, EndsOk, Unshared;
  }

  lemma {:induction false} PutOneKeeps(p: Pairs, e: Ref, E: End)
    requires PairInv(p) && e in p.ends && PutOne(p, e, E)
    ensures PairInv(p.(ends := p.ends[e := E]))
  {
    PutOnePut(p, e, E);
    hide PutTwo, LinksOk, OperationsOk, LeasesHeld, EndsOk, Unshared;
    PutTwoKeeps(p, p.(ends := p.ends[e := E]), e, E, Other(p, e), OtherEnd(p, e, E));
  }

  lemma {:induction false} CancelKeeps(p: Pairs, e: Ref)
    requires PairInv(p) && e in p.ends && p.ends[e].initialized && !p.ends[e].closed
    requires CancelRequested(p.ends[e].state, false).Some?
    ensures PairInv(p.(ends := p.ends[e := CancelledEnd(p.ends[e])]))
  {
    EndFacts(p, e);
    var E := p.ends[e];
    assert E.operation != NULL && E.failure == Ok;
    CancelFits(E, p.bufs[E.operation]);
    if E.peer != NULL {
      CancelLinkFits(E, p.ends[E.peer]);
    }
    hide EndOk, LinkOk, OperationOk, LinksOk, OperationsOk, Unshared, LeasesHeld, EndsOk, CancelRequested;
    PutOneKeeps(p, e, CancelledEnd(E));
  }

  lemma {:induction false} CloseFits(E: End)
    requires EndOk(E) && E.initialized && E.operation == NULL
    ensures EndOk(ClosedEnd(E))
  {
  }

  lemma {:induction false} DropFits(P: End)
    requires EndOk(P) && P.initialized && !P.closed && P.peer != NULL
    ensures DroppedByPeer(P.state).Some? && EndOk(DroppedEnd(P))
  {
  }

  lemma {:induction false} DropOperation(P: End, v: Buf)
    requires EndOk(P) && P.initialized && !P.closed && P.peer != NULL && P.operation != NULL && OperationOk(P, v)
    requires DroppedByPeer(P.state).Some?
    ensures OperationOk(DroppedEnd(P), v)
  {
  }

  lemma {:induction false} ClosePut(p: Pairs, e: Ref)
    requires PairInv(p) && e in p.ends && p.ends[e].initialized && !p.ends[e].closed && p.ends[e].operation == NULL
    requires p.ends[e].peer == NULL
    ensures PutTwo(p, ClosePairs(p, e), e, ClosedEnd(p.ends[e]), e, ClosedEnd(p.ends[e]))
  {
    EndFacts(p, e);
    CloseFits(p.ends[e]);
    hide EndOk, LinkOk, OperationOk, LinksOk, OperationsOk, Unshared, LeasesHeld, EndsOk;
  }

  lemma {:induction false} CloseLinkedPut(p: Pairs, e: Ref)
    requires PairInv(p) && e in p.ends && p.ends[e].initialized && !p.ends[e].closed && p.ends[e].operation == NULL
    requires p.ends[e].peer != NULL && DroppedByPeer(p.ends[p.ends[e].peer].state).Some?
    ensures PutTwo(p, ClosePairs(p, e), e, ClosedEnd(p.ends[e]), p.ends[e].peer, DroppedEnd(p.ends[p.ends[e].peer]))
  {
    EndFacts(p, e);
    var f := p.ends[e].peer;
    EndFacts(p, f);
    CloseFits(p.ends[e]);
    DropFits(p.ends[f]);
    if p.ends[f].operation != NULL {
      DropOperation(p.ends[f], p.bufs[p.ends[f].operation]);
    }
    hide EndOk, LinkOk, OperationOk, LinksOk, OperationsOk, Unshared, LeasesHeld, EndsOk;
  }

  lemma {:induction false} CloseKeeps(p: Pairs, e: Ref)
    requires PairInv(p) && e in p.ends && p.ends[e].initialized && !p.ends[e].closed && p.ends[e].operation == NULL
    ensures p.ends[e].peer != NULL ==> DroppedByPeer(p.ends[p.ends[e].peer].state).Some?
    ensures PairInv(ClosePairs(p, e))
  {
    EndFacts(p, e);
    var f := p.ends[e].peer;
    if f == NULL {
      ClosePut(p, e);
      hide *;
      PutTwoKeeps(p, ClosePairs(p, e), e, ClosedEnd(p.ends[e]), e, ClosedEnd(p.ends[e]));
    } else {
      EndFacts(p, f);
      DropFits(p.ends[f]);
      CloseLinkedPut(p, e);
      hide EndOk, LinkOk, OperationOk, LinksOk, OperationsOk, Unshared, LeasesHeld, EndsOk, PutTwo, ClosePairs;
      hide DroppedByPeer;
      PutTwoKeeps(p, ClosePairs(p, e), e, ClosedEnd(p.ends[e]), f, DroppedEnd(p.ends[f]));
    }
  }

  // ---------------------------------------------------------------- forward

  /** Two ends about to be spliced always have a plan, and it fits. */
  lemma {:induction false} SpliceFits(R: End, W: End, reader: Ref, writer: Ref, rb: Buf, wb: Buf)
    requires EndOk(R) && EndOk(W) && R.initialized && W.initialized && !R.closed && !W.closed
    requires R.peer != NULL && W.peer != NULL && reader != NULL && writer != NULL
    requires R.readable && !W.readable && R.ty == W.ty && R.failure == Ok && W.failure == Ok
    requires R.available != NULL && W.available != NULL && OperationOk(R, rb) && OperationOk(W, wb)
    ensures PlanSplice(R.state, W.state, rb, wb).Some?
    ensures var plan := PlanSplice(R.state, W.state, rb, wb).value;
            var R', W' := SplicedEnd(R, writer, plan.read, plan.readDone),
              SplicedEnd(W, reader, plan.write, plan.writeDone);
            && EndOk(R') && EndOk(W') && LinkOk(R', W') && LinkOk(W', R')
            && OperationOk(R', rb.(progress := rb.progress + plan.count))
            && OperationOk(W', wb.(progress := wb.progress + plan.count))
            && rb.progress + plan.count <= rb.length && wb.progress + plan.count <= wb.length
  {
  }

  lemma {:induction false} SpliceIdleFits(R: End, W: End, reader: Ref, writer: Ref)
    requires EndOk(R) && EndOk(W) && R.initialized && W.initialized && !R.closed && !W.closed
    requires R.peer != NULL && W.peer != NULL && reader != NULL && writer != NULL
    requires R.readable && !W.readable && R.ty == W.ty && R.failure == Ok && W.failure == Ok
    requires R.available == NULL || W.available == NULL
    ensures var R', W' := SplicedEnd(R, writer, R.state, false), SplicedEnd(W, reader, W.state, false);
            EndOk(R') && EndOk(W') && LinkOk(R', W') && LinkOk(W', R')
  {
  }

  lemma {:induction false} SpliceIdleOperation(E: End, peer: Ref, v: Buf)
    requires OperationOk(E, v)
    ensures OperationOk(SplicedEnd(E, peer, E.state, false), v)
  {
  }

  /** The four ends of a forward: `s` and `d` close, `r` and `w` become peers. */
  ghost predicate FourEnds(p: Pairs, s: Ref, d: Ref, r: Ref, w: Ref) {
    && s in p.ends && d in p.ends && r in p.ends && w in p.ends
    && s != d && s != r && s != w && d != r && d != w && r != w
    && p.ends[s].peer == w && p.ends[d].peer == r && p.ends[w].peer == s && p.ends[r].peer == d
  }

  /** What `forward` has to find to splice. */
  ghost predicate CanForward(p: Pairs, s: Ref, d: Ref) {
    && PairInv(p) && s in p.ends && d in p.ends
    && var S, D := p.ends[s], p.ends[d];
    && S.readable && !D.readable && S.ty == D.ty && S.failure == Ok && D.failure == Ok
    && S.operation == NULL && D.operation == NULL
    && S.peer != NULL && D.peer != NULL && S.peer != d
  }

  lemma {:induction false} ForwardFour(p: Pairs, s: Ref, d: Ref)
    requires CanForward(p, s, d)
    ensures FourEnds(p, s, d, p.ends[d].peer, p.ends[s].peer)
  {
    EndFacts(p, s);
    EndFacts(p, d);
    EndFacts(p, p.ends[d].peer);
    hide EndOk, LinkOk, OperationOk, LinksOk, OperationsOk, Unshared, LeasesHeld, EndsOk;
  }

  /** The surviving ends `r` and `w` of a forward can be linked. */
  predicate Joinable(R: End, W: End) {
    && EndOk(R) && EndOk(W) && R.initialized && W.initialized && !R.closed && !W.closed
    && R.peer != NULL && W.peer != NULL
    && R.readable && !W.readable && R.ty == W.ty && R.failure == Ok && W.failure == Ok
  }

  lemma {:induction false} ForwardJoinable(p: Pairs, s: Ref, d: Ref)
    requires CanForward(p, s, d)
    ensures Joinable(p.ends[p.ends[d].peer], p.ends[p.ends[s].peer])
  {
    EndFacts(p, s);
    EndFacts(p, d);
    EndFacts(p, p.ends[d].peer);
    EndFacts(p, p.ends[s].peer);
    hide EndOk, OperationOk, LinksOk, OperationsOk, Unshared, LeasesHeld, EndsOk;
  }

  /** The facts about a planned splice. */
  ghost predicate SplicePlanFacts(p: Pairs, r: Ref, w: Ref, plan: Splice)
    requires r in p.ends && w in p.ends
  {
    var R, W := p.ends[r], p.ends[w];
    var R', W' := SplicedEnd(R, w, plan.read, plan.readDone), SplicedEnd(W, r, plan.write, plan.writeDone);
    && EndOk(R') && EndOk(W') && LinkOk(R', W') && LinkOk(W', R')
    && (R.operation != NULL ==>
         R.operation in p.bufs
         && OperationOk(R', p.bufs[R.operation].(progress := p.bufs[R.operation].progress + plan.count)))
    && (W.operation != NULL ==>
         W.operation in p.bufs
         && OperationOk(W', p.bufs[W.operation].(progress := p.bufs[W.operation].progress + plan.count)))
    && (R.operation != NULL ==> R.operation != W.operation)
    && (plan.count != 0 ==>
         R.state.phase.Copying? && W.state.phase.Copying? && R.operation != NULL && W.operation != NULL)
  }

  lemma {:induction false} SplicePlanExists(p: Pairs, r: Ref, w: Ref)
    requires PairInv(p) && r in p.ends && w in p.ends && r != w && Joinable(p.ends[r], p.ends[w])
    ensures SplicePlan(p, r, w).Some?
    ensures SplicePlanFacts(p, r, w, SplicePlan(p, r, w).value)
  {
    EndFacts(p, r);
    EndFacts(p, w);
    assert p.ends[r].operation != NULL ==> p.ends[r].operation != p.ends[w].operation;
    hide LinksOk, OperationsOk, Unshared, LeasesHeld, EndsOk;
    var R, W := p.ends[r], p.ends[w];
    assert r != NULL && w != NULL;
    if R.available == NULL || W.available == NULL {
      SpliceIdleFits(R, W, r, w);
      if R.operation != NULL {
        SpliceIdleOperation(R, w, p.bufs[R.operation]);
        assert p.bufs[R.operation].(progress := p.bufs[R.operation].progress + 0) == p.bufs[R.operation];
      }
      if W.operation != NULL {
        SpliceIdleOperation(W, r, p.bufs[W.operation]);
        assert p.bufs[W.operation].(progress := p.bufs[W.operation].progress + 0) == p.bufs[W.operation];
      }
      hide EndOk, LinkOk, OperationOk;
    } else {
      assert R.available == R.operation && W.available == W.operation;
      SpliceFits(R, W, r, w, p.bufs[R.operation], p.bufs[W.operation]);
      assert PlanSplice(R.state, W.state, p.bufs[R.operation], p.bufs[W.operation]).value.count != 0 ==>
          R.state.phase.Copying? && W.state.phase.Copying?;
      hide EndOk, LinkOk, OperationOk, PlanSplice;
    }
  }

  /** The joined snapshot can carry out the planned copy. */
  lemma {:induction false} JoinTransferable(p: Pairs, s: Ref, d: Ref, r: Ref, w: Ref, plan: Splice)
    requires Closed(p) && FourEnds(p, s, d, r, w) && SplicePlanFacts(p, r, w, plan) && plan.count != 0
    requires p.ends[r].ty == p.ends[w].ty
    ensures Transferable(Join(p, s, d, r, w), r, w, plan.count)
  {
    BufFacts(p, p.ends[r].operation);
    BufFacts(p, p.ends[w].operation);
    hide EndOk, LinkOk;
  }

  /** Only the four ends changed. */
  ghost predicate FourChanged(p: Pairs, q: Pairs, s: Ref, d: Ref, r: Ref, R: End, w: Ref, W: End)
    requires s in p.ends && d in p.ends && r in p.ends && w in p.ends
  {
    && q.ends.Keys == p.ends.Keys
    && q.ends[s] == ClosedEnd(p.ends[s]) && q.ends[d] == ClosedEnd(p.ends[d]) && q.ends[r] == R && q.ends[w] == W
    && (forall x :: x in p.ends && x != s && x != d && x != r && x != w ==> q.ends[x] == p.ends[x])
  }

  /** How a splice leaves the snapshot. */
  ghost predicate SpliceResult(p: Pairs, q: Pairs, s: Ref, d: Ref, r: Ref, R: End, w: Ref, W: End) {
    && FourEnds(p, s, d, r, w) && SameShape(p, q) && FourChanged(p, q, s, d, r, R, w, W)
    && EndOk(R) && EndOk(W) && LinkOk(R, W) && LinkOk(W, R) && R.peer == w && W.peer == r
    && R.operation == p.ends[r].operation && W.operation == p.ends[w].operation
    && (R.operation != NULL ==> R.operation in p.bufs && OperationOk(R, q.bufs[R.operation]))
    && (W.operation != NULL ==> W.operation in p.bufs && OperationOk(W, q.bufs[W.operation]))
    && (R.operation != NULL ==> R.operation != W.operation)
    && (forall b :: b in p.bufs && b != R.operation && b != W.operation ==> q.bufs[b] == p.bufs[b])
  }

  ghost function SpliceMap(p: Pairs, s: Ref, d: Ref, r: Ref, R: End, w: Ref, W: End): (m: map<Ref, End>)
    requires FourEnds(p, s, d, r, w)
    ensures m.Keys == {s, d, r, w} && m[s] == ClosedEnd(p.ends[s]) && m[d] == ClosedEnd(p.ends[d]) && m[r] == R
    ensures m[w] == W
  {
    map[s := ClosedEnd(p.ends[s]), d := ClosedEnd(p.ends[d]), r := R, w := W]
  }

  lemma {:induction false} SpliceLinks(p: Pairs, q: Pairs, s: Ref, d: Ref, r: Ref, R: End, w: Ref, W: End)
    requires SpliceResult(p, q, s, d, r, R, w, W)
    ensures var m := SpliceMap(p, s, d, r, R, w, W); forall x :: x in m ==> LinkStep(p, m, x)
  {
    hide EndOk, LinkOk, OperationOk, SpliceMap, SameShape, FourChanged;
  }

  lemma {:induction false} SpliceOperations(p: Pairs, q: Pairs, s: Ref, d: Ref, r: Ref, R: End, w: Ref, W: End)
    requires SpliceResult(p, q, s, d, r, R, w, W)
    requires p.ends[s].operation == NULL && p.ends[d].operation == NULL
    ensures var m := SpliceMap(p, s, d, r, R, w, W); forall x :: x in m ==> OperationStep(p, q, x, m[x])
  {
    hide EndOk, LinkOk, OperationOk, SpliceMap, FourChanged;
  }

  lemma {:induction false} SpliceEnds(p: Pairs, q: Pairs, s: Ref, d: Ref, r: Ref, R: End, w: Ref, W: End)
    requires SpliceResult(p, q, s, d, r, R, w, W) && EndOk(ClosedEnd(p.ends[s])) && EndOk(ClosedEnd(p.ends[d]))
    ensures var m := SpliceMap(p, s, d, r, R, w, W); forall x :: x in m ==> EndOk(m[x])
    ensures var m := SpliceMap(p, s, d, r, R, w, W); forall x :: x in p.ends ==>
              q.ends[x] == if x in m then m[x] else p.ends[x]
  {
    hide EndOk, LinkOk, OperationOk, SpliceMap, ClosedEnd;
  }

  lemma {:induction false} SpliceUnshared(p: Pairs, q: Pairs, s: Ref, d: Ref, r: Ref, R: End, w: Ref, W: End)
    requires SpliceResult(p, q, s, d, r, R, w, W)
    requires p.ends[s].operation == NULL && p.ends[d].operation == NULL
    ensures var m := SpliceMap(p, s, d, r, R, w, W);
            && (forall x, y :: x in m && y in m && x != y && m[x].operation != NULL ==>
                 m[x].operation != m[y].operation)
            && (forall b :: b in p.bufs && !BufferOf(p, m, b) ==> q.bufs[b] == p.bufs[b])
  {
    hide EndOk, LinkOk, OperationOk, SpliceMap, FourChanged;
    var m := SpliceMap(p, s, d, r, R, w, W);
    forall b | b in p.bufs && !BufferOf(p, m, b)
      ensures q.bufs[b] == p.bufs[b]
    {
      assert r in m && w in m;
    }
  }

  lemma {:induction false} SpliceShape(p: Pairs, q: Pairs, s: Ref, d: Ref, r: Ref, R: End, w: Ref, W: End)
    requires SpliceResult(p, q, s, d, r, R, w, W)
    ensures SameShape(p, q) && SpliceMap(p, s, d, r, R, w, W).Keys <= p.ends.Keys
  {
    hide EndOk, LinkOk, OperationOk, SpliceMap, ClosedEnd, FourChanged;
  }

  lemma {:induction false} SplicePut(p: Pairs, q: Pairs, s: Ref, d: Ref, r: Ref, R: End, w: Ref, W: End)
    requires SpliceResult(p, q, s, d, r, R, w, W) && EndOk(ClosedEnd(p.ends[s])) && EndOk(ClosedEnd(p.ends[d]))
    requires p.ends[s].operation == NULL && p.ends[d].operation == NULL
    ensures Put(p, q, SpliceMap(p, s, d, r, R, w, W))
  {
    hide SpliceResult, EndOk, LinkOk, OperationOk, SpliceMap, LinkStep, OperationStep, SameShape, BufferOf, ClosedEnd;
    SpliceShape(p, q, s, d, r, R, w, W);
    SpliceLinks(p, q, s, d, r, R, w, W);
    SpliceOperations(p, q, s, d, r, R, w, W);
    SpliceEnds(p, q, s, d, r, R, w, W);
    SpliceUnshared(p, q, s, d, r, R, w, W);
  }

  /** The surviving operations after the copy of a splice. */
  ghost predicate SpliceBufs(p: Pairs, q: Pairs, r: Ref, w: Ref, count: nat, status: Status)
    requires r in p.ends && w in p.ends
  {
    && SameShape(p, q)
    && if count == 0 then q.bufs == p.bufs && status == Ok
         else BufsStep(p, q, p.ends[r].operation, p.ends[w].operation, count, status)
  }

  lemma {:induction false} SplicePairsBufs(p: Pairs, s: Ref, d: Ref, r: Ref, w: Ref, plan: Splice, f: Faults)
    requires FourEnds(p, s, d, r, w) && CanSplice(p, s, d, plan)
    requires plan.count != 0 ==> Transferable(Join(p, s, d, r, w), r, w, plan.count)
    ensures var (q, status) := SplicePairs(p, s, d, plan, f); SpliceBufs(p, q, r, w, plan.count, status)
  {
    hide TransferBuffers, Transferable, CanTransfer, Advanced;
    var j := Join(p, s, d, r, w);
    if plan.count != 0 {
      TransferBufs(j, r, w, plan.count, f);
      TransferShape(j, r, w, plan.count, f);
    }
  }

  lemma {:induction false} SplicePairsEnds(p: Pairs, s: Ref, d: Ref, r: Ref, w: Ref, plan: Splice, f: Faults)
    requires FourEnds(p, s, d, r, w) && CanSplice(p, s, d, plan)
    requires plan.count != 0 ==> Transferable(Join(p, s, d, r, w), r, w, plan.count)
    ensures var (q, status) := SplicePairs(p, s, d, plan, f);
            if status == Ok then
              FourChanged(p, q, s, d, r, SplicedEnd(p.ends[r], w, plan.read, plan.readDone), w,
              SplicedEnd(p.ends[w], r, plan.write, plan.writeDone))
            else FourChanged(p, q, s, d, r, Fail(p.ends[r].(peer := w), status), w, Fail(p.ends[w].(peer := r), status))
  {
    hide TransferBuffers, Transferable, CanTransfer, Fail;
    var j := Join(p, s, d, r, w);
    if plan.count != 0 {
      TransferEnds(j, r, w, plan.count, f);
    }
  }

  lemma {:induction false} SplicedResult(p: Pairs, q: Pairs, s: Ref, d: Ref, r: Ref, w: Ref, plan: Splice)
    requires FourEnds(p, s, d, r, w) && SplicePlanFacts(p, r, w, plan) && SpliceBufs(p, q, r, w, plan.count, Ok)
    requires FourChanged(p, q, s, d, r, SplicedEnd(p.ends[r], w, plan.read, plan.readDone), w,
               SplicedEnd(p.ends[w], r, plan.write, plan.writeDone))
    ensures SpliceResult(p, q, s, d, r, SplicedEnd(p.ends[r], w, plan.read, plan.readDone), w,
              SplicedEnd(p.ends[w], r, plan.write, plan.writeDone))
  {
    hide EndOk, LinkOk, FourChanged;
  }

  lemma {:induction false} SpliceFailedResult(p: Pairs, q: Pairs, s: Ref, d: Ref, r: Ref, w: Ref, plan: Splice,
      status: Status)
    requires FourEnds(p, s, d, r, w) && SplicePlanFacts(p, r, w, plan) && SpliceBufs(p, q, r, w, plan.count, status)
    requires status != Ok && r != NULL && w != NULL && Joinable(p.ends[r], p.ends[w])
    requires FourChanged(p, q, s, d, r, Fail(p.ends[r].(peer := w), status), w, Fail(p.ends[w].(peer := r), status))
    ensures SpliceResult(p, q, s, d, r, Fail(p.ends[r].(peer := w), status), w, Fail(p.ends[w].(peer := r), status))
  {
    var R, W := p.ends[r].(peer := w), p.ends[w].(peer := r);
    FailFits(R, W, status);
    FailFits(W, R, status);
    FailOperation(R, status, q.bufs[R.operation]);
    FailOperation(W, status, q.bufs[W.operation]);
    hide EndOk, LinkOk, OperationOk, FourChanged, CancelRequested;
  }

  lemma {:induction false} SpliceCan(p: Pairs, s: Ref, d: Ref, r: Ref, w: Ref, plan: Splice)
    requires FourEnds(p, s, d, r, w) && r != NULL && w != NULL
    requires plan.count != 0 ==> Transferable(Join(p, s, d, r, w), r, w, plan.count)
    ensures CanSplice(p, s, d, plan)
  {
  }

  lemma {:induction false} ClosedEndsFit(p: Pairs, s: Ref, d: Ref)
    requires CanForward(p, s, d)
    ensures EndOk(ClosedEnd(p.ends[s])) && EndOk(ClosedEnd(p.ends[d]))
  {
    EndFacts(p, s);
    EndFacts(p, d);
    CloseFits(p.ends[s]);
    CloseFits(p.ends[d]);
  }

  /** Forwarding keeps the pair invariant, whether or not its copy fails. */
  lemma {:induction false} ForwardKeeps(p: Pairs, s: Ref, d: Ref, f: Faults)
    requires CanForward(p, s, d)
    ensures p.ends[s].peer in p.ends && p.ends[d].peer in p.ends
    ensures SplicePlan(p, p.ends[d].peer, p.ends[s].peer).Some?
    ensures var plan := SplicePlan(p, p.ends[d].peer, p.ends[s].peer).value;
            CanSplice(p, s, d, plan) && PairInv(SplicePairs(p, s, d, plan, f).0)
  {
    ForwardFour(p, s, d);
    ForwardJoinable(p, s, d);
    ClosedEndsFit(p, s, d);
    var r, w := p.ends[d].peer, p.ends[s].peer;
    assert r != NULL && w != NULL && p.ends[r].ty == p.ends[w].ty;
    hide EndOk, LinkOk, OperationOk, Closed, LinksOk, OperationsOk, Unshared, LeasesHeld, EndsOk, Joinable, ClosedEnd;
    hide Join;
    SplicePlanExists(p, r, w);
    var plan := SplicePlan(p, r, w).value;
    hide SplicePlan, SplicePlanFacts, CanSplice, SplicePairs, Transferable, SpliceBufs, FourChanged, SplicedEnd, Fail;
    hide SpliceResult, Put, SpliceMap;
    if plan.count != 0 {
      JoinTransferable(p, s, d, r, w, plan);
    }
    SpliceCan(p, s, d, r, w, plan);
    var (q, status) := SplicePairs(p, s, d, plan, f);
    SplicePairsBufs(p, s, d, r, w, plan, f);
    SplicePairsEnds(p, s, d, r, w, plan, f);
    if status == Ok {
      var R, W := SplicedEnd(p.ends[r], w, plan.read, plan.readDone),
        SplicedEnd(p.ends[w], r, plan.write, plan.writeDone);
      SplicedResult(p, q, s, d, r, w, plan);
      SplicePut(p, q, s, d, r, R, w, W);
      PutKeeps(p, q, SpliceMap(p, s, d, r, R, w, W));
    } else {
      var R, W := Fail(p.ends[r].(peer := w), status), Fail(p.ends[w].(peer := r), status);
      SpliceFailedResult(p, q, s, d, r, w, plan, status);
      SplicePut(p, q, s, d, r, R, w, W);
      PutKeeps(p, q, SpliceMap(p, s, d, r, R, w, W));
    }
  }
}
