/**
  Conservation over every run, forwards included: each transfer moved the cells
  that were there, between ends that were linked, and is found in its place on
  both sides; the totals of both sides agree.
 */
module EndpointConservation {
  import opened Common
  import opened AsyncState
  import opened EndpointModel
  import opened EndpointInvariant
  import opened EndpointFlow
  import opened EndpointOwnership
  import opened EndpointTransactions
  import opened EndpointHomes
  import opened EndpointSteps
  import opened EndpointMoves
  import opened EndpointRuns
  import opened EndpointProgress
  import opened EndpointTheorems
  import opened EndpointPromises

  // ---------------------------------------------------------------- one copy

  lemma {:induction false} CopyMovesCells(src: Buf, dst: Buf, sc: seq<Cell>, dc: seq<Cell>, hasPayload: bool,
      count: nat, f: Faults)
    requires CanCopy(src, dst, sc, dc, hasPayload, count)
    ensures var out := BufferCopy(src, dst, sc, dc, hasPayload, count, f);
            out.status == Ok && hasPayload ==>
              && out.src.values == src.values && out.dst.values == dst.values && out.src.guest == src.guest
              && out.batch == sc[src.progress..src.progress + count]
              && out.dc[dst.progress..dst.progress + count] == out.batch
  {
    var out := BufferCopy(src, dst, sc, dc, hasPayload, count, f);
    if out.status == Ok && hasPayload {
      assert out.batch[..count] == out.batch;
      assert out.dc == Overwrite(dc, dst.progress, out.batch);
    }
  }

  /** A committed transfer logs the cells that the writer's buffer held at that
      moment, in guest memory or the host's, and leaves them in the reader's buffer. */
  lemma {:induction false} TransferMovesCells(p: Pairs, r: Ref, w: Ref, count: nat, f: Faults)
    requires Closed(p) && HostUnique(p) && CanTransfer(p, r, w, count) && p.ends[w].ty == p.ends[r].ty
    requires p.ends[r].ty.hasPayload
    requires TransferBuffers(p, r, w, count, f).1 == Ok
    ensures var q, src, dst := TransferBuffers(p, r, w, count, f).0, p.bufs[p.ends[w].operation],
              p.bufs[p.ends[r].operation];
            && dst.values in q.cells && dst.progress + count <= |q.cells[dst.values]|
            && q.log == p.log + [Transfer(w, r, p.cells[src.values][src.progress..src.progress + count])]
            && q.cells[dst.values][dst.progress..dst.progress + count] ==
                 p.cells[src.values][src.progress..src.progress + count]
  {
    var src, dst := p.bufs[p.ends[w].operation], p.bufs[p.ends[r].operation];
    assert Apart(p.ends[w], src, p.ends[r], dst);
    CopyMovesCells(src, dst, p.cells[src.values], p.cells[dst.values], true, count, f);
    TransferSucceeds(p, r, w, count, f);
    hide BufferCopy, Closed, HostUnique;
  }

  /** A transfer that answers Ok copied. */
  lemma {:induction false} TransferSucceeds(p: Pairs, r: Ref, w: Ref, count: nat, f: Faults)
    requires CanTransfer(p, r, w, count) && TransferBuffers(p, r, w, count, f).1 == Ok
    ensures Copied(p, r, w, count, f).status == Ok
  {
    hide BufferCopy;
  }

  // ---------------------------------------------------------------- both sides of a transfer

  /** Where the batch of transfer `i` stands among the elements of `e`. */
  function Position(log: seq<Transfer>, i: nat, e: Ref, reading: bool): nat
    requires i <= |log|
  {
    |Flow(log[..i], e, reading)|
  }

  lemma {:induction false} FlowStep(log: seq<Transfer>, e: Ref, reading: bool)
    requires log != []
    ensures var last := |log| - 1;
            Flow(log, e, reading) == Flow(log[..last], e, reading) +
              if e == (if reading then log[last].reader else log[last].writer) then log[last].batch else []
  {
  }

  lemma {:induction false} Behind(front: seq<Cell>, batch: seq<Cell>)
    ensures (front + batch)[|front|..|front| + |batch|] == batch
  {
  }

  lemma {:induction false} FlowAt(log: seq<Transfer>, i: nat, e: Ref, reading: bool)
    requires i < |log| && e == if reading then log[i].reader else log[i].writer
    ensures var a, flow := Position(log, i, e, reading), Flow(log, e, reading);
            a + |log[i].batch| <= |flow| && flow[a..a + |log[i].batch|] == log[i].batch
    decreases |log|
  {
    hide Flow;
    var last := |log| - 1;
    FlowStep(log, e, reading);
    assert log[..last][..i] == log[..i];
    if i < last {
      FlowAt(log[..last], i, e, reading);
      var a, n, front := Position(log, i, e, reading), |log[i].batch|, Flow(log[..last], e, reading);
      assert Flow(log, e, reading)[..|front|] == front;
      assert Flow(log, e, reading)[a..a + n] == front[a..a + n];
    } else {
      assert log[..i] == log[..last];
      Behind(Flow(log[..i], e, reading), log[i].batch);
    }
  }

  /** Transfer `i` stands in its place among the elements of its writer and of its reader. */
  ghost predicate Stands(p: Pairs, i: nat)
    requires Closed(p) && i < |p.log|
  {
    var t := p.log[i];
    && t.writer in p.ends && t.reader in p.ends && !p.ends[t.writer].readable && p.ends[t.reader].readable
    && var a, b, n := Position(p.log, i, t.writer, false), Position(p.log, i, t.reader, true), |t.batch|;
    && a + n <= |Through(p, t.writer)| && b + n <= |Through(p, t.reader)|
    && Through(p, t.writer)[a..a + n] == t.batch == Through(p, t.reader)[b..b + n]
  }

  /** Every transfer is found in its place on both sides: the writer's elements are,
      in order, the batches of its transfers, and each of them stands, in order,
      among the elements of the reader that it went to. */
  lemma {:induction false} TransferMatched(w: World, i: nat)
    requires Inv(w) && i < |w.p.log|
    ensures Closed(w.p) && Stands(w.p, i)
  {
    hide Inv, Flow, Through, Closed, HostExact;
    LoggedEnds(w, i);
    var t := w.p.log[i];
    ElementsConserved(w, t.writer);
    ElementsConserved(w, t.reader);
    FlowAt(w.p.log, i, t.writer, false);
    FlowAt(w.p.log, i, t.reader, true);
  }

  lemma {:induction false} LoggedEnds(w: World, i: nat)
    requires Inv(w) && i < |w.p.log|
    ensures var t := w.p.log[i];
            && t.writer in w.p.ends && t.reader in w.p.ends && !w.p.ends[t.writer].readable
            && w.p.ends[t.reader].readable
            && w.p.ends[t.writer].initialized && w.p.ends[t.reader].initialized
  {
    hide PairInv, HomeInv, OwnInv, FlowInv, ContentInv, HostUnique, Closed;
  }

  // ---------------------------------------------------------------- totals

  /** How many elements the ends `es` have moved, by the log. */
  ghost function Total(log: seq<Transfer>, es: set<Ref>, reading: bool): nat {
    if es == {} then 0
    else
      var e :| e in es;
      |Flow(log, e, reading)| + Total(log, es - {e}, reading)
  }

  function Batches(log: seq<Transfer>): nat {
    if log == [] then 0 else |log[|log| - 1].batch| + Batches(log[..|log| - 1])
  }

  lemma {:induction false} TotalNone(es: set<Ref>, reading: bool)
    ensures Total([], es, reading) == 0
    decreases es
  {
    if es != {} {
      var e :| e in es && Total([], es, reading) == |Flow([], e, reading)| + Total([], es - {e}, reading);
      TotalNone(es - {e}, reading);
      assert Flow([], e, reading) == [];
    }
  }

  /** One more transfer adds its batch if its end is among `es`. */
  lemma {:induction false} TotalStep(log: seq<Transfer>, es: set<Ref>, reading: bool)
    requires log != []
    ensures var t := log[|log| - 1]; var x := if reading then t.reader else t.writer;
            Total(log, es, reading) == Total(log[..|log| - 1], es, reading) + if x in es then |t.batch| else 0
    decreases es
  {
    var less, t := log[..|log| - 1], log[|log| - 1];
    var x := if reading then t.reader else t.writer;
    if es != {} {
      var e :| e in es && Total(log, es, reading) == |Flow(log, e, reading)| + Total(log, es - {e}, reading);
      TotalStep(log, es - {e}, reading);
      TotalPart(less, es, e, reading);
      assert Flow(log, e, reading) == Flow(less, e, reading) + if x == e then t.batch else [];
    }
  }

  lemma {:induction false} TotalPart(log: seq<Transfer>, es: set<Ref>, e: Ref, reading: bool)
    requires e in es
    ensures Total(log, es, reading) == |Flow(log, e, reading)| + Total(log, es - {e}, reading)
    decreases es
  {
    var x :| x in es && Total(log, es, reading) == |Flow(log, x, reading)| + Total(log, es - {x}, reading);
    if x != e {
      TotalPart(log, es - {x}, e, reading);
      TotalPart(log, es - {e}, x, reading);
      assert es - {x} - {e} == es - {e} - {x};
    }
  }

  lemma {:induction false} TotalAll(log: seq<Transfer>, es: set<Ref>, reading: bool)
    requires forall i :: 0 <= i < |log| ==> (if reading then log[i].reader else log[i].writer) in es
    ensures Total(log, es, reading) == Batches(log)
    decreases |log|
  {
    if log == [] {
      TotalNone(es, reading);
    } else {
      TotalStep(log, es, reading);
      TotalAll(log[..|log| - 1], es, reading);
    }
  }

  ghost function EndsOf(p: Pairs, reading: bool): set<Ref> {
    set e | e in p.ends && p.ends[e].initialized && p.ends[e].readable == reading
  }

  /** How many elements all writing or all reading ends have moved. */
  ghost function MovedTotal(p: Pairs, es: set<Ref>): nat
    requires Closed(p) && es <= p.ends.Keys
  {
    if es == {} then 0
    else
      var e :| e in es;
      |Through(p, e)| + MovedTotal(p, es - {e})
  }

  lemma {:induction false} MovedIsLogged(w: World, es: set<Ref>, reading: bool)
    requires Inv(w) && Closed(w.p) && es <= EndsOf(w.p, reading)
    ensures es <= w.p.ends.Keys && MovedTotal(w.p, es) == Total(w.p.log, es, reading)
    decreases es
  {
    hide Inv, Flow, Through;
    assert es <= w.p.ends.Keys;
    if es != {} {
      var e :| e in es && MovedTotal(w.p, es) == |Through(w.p, e)| + MovedTotal(w.p, es - {e});
      ElementsConserved(w, e);
      MovedIsLogged(w, es - {e}, reading);
      TotalPart(w.p.log, es, e, reading);
    }
  }

  /** All writers together gave away as many elements as all readers got. */
  lemma {:induction false} TotalsAgree(w: World)
    requires Inv(w)
    ensures Closed(w.p) && EndsOf(w.p, false) <= w.p.ends.Keys && EndsOf(w.p, true) <= w.p.ends.Keys
    ensures MovedTotal(w.p, EndsOf(w.p, false)) == MovedTotal(w.p, EndsOf(w.p, true)) == Batches(w.p.log)
  {
    PairClosed(w.p);
    hide Inv, Closed, MovedTotal, Total;
    MovedIsLogged(w, EndsOf(w.p, false), false);
    MovedIsLogged(w, EndsOf(w.p, true), true);
    forall i | 0 <= i < |w.p.log|
      ensures w.p.log[i].writer in EndsOf(w.p, false) && w.p.log[i].reader in EndsOf(w.p, true)
    {
      LoggedEnds(w, i);
    }
    TotalAll(w.p.log, EndsOf(w.p, false), false);
    TotalAll(w.p.log, EndsOf(w.p, true), true);
  }

  // ---------------------------------------------------------------- along links

  /** `x` and `r` are linked. */
  ghost predicate Peers(p: Pairs, x: Ref, r: Ref) {
    r != NULL && x in p.ends && p.ends[x].peer == r
  }

  /** The transfers that are new in `q` went between ends that were linked before or are now. */
  ghost predicate NewAlong(p: Pairs, q: Pairs) {
    && p.log <= q.log
    && (forall i :: |p.log| <= i < |q.log| ==>
         Peers(p, q.log[i].writer, q.log[i].reader) || Peers(q, q.log[i].writer, q.log[i].reader))
  }

  lemma {:induction false} AlongNew(p: Pairs, q: Pairs)
    requires AlongLinks(p, q)
    ensures NewAlong(p, q)
  {
  }

  lemma {:induction false} SameNew(p: Pairs, q: Pairs)
    requires q.log == p.log
    ensures NewAlong(p, q)
  {
  }

  lemma {:induction false} SplicedNew(w: World, s: Ref, d: Ref, f: Faults)
    requires Inv(w) && s in w.p.ends && d in w.p.ends && ForwardCheck(w, s, d) == Ok && !NothingToJoin(w.p, s, d)
    ensures NewAlong(w.p, Spliced(w, s, d, f).0.p)
  {
    hide PairInv, Conserved, HomeInv, OwnersInv, EachOwnOk, ForwardCheck, NothingToJoin, SplicePairs, SplicePlan;
    hide CanSplice, CanForward, Unregister, Note, Shift, HeldAtRest;
    PairClosed(w.p);
    ForwardJoins(w, s, d, f);
    SplicedFits(w, s, d, f);
    SpliceLog(w.p, s, d, SplicePlan(w.p, w.p.ends[d].peer, w.p.ends[s].peer).value, f);
    assert w.p.ends[d].peer != NULL;
  }

  lemma {:induction false} ForwardNew(w: World, s: Ref, d: Ref, f: Faults)
    requires Inv(w) && s in w.p.ends && d in w.p.ends
    ensures NewAlong(w.p, Forward(w, s, d, f).0.p)
  {
    hide PairInv, Conserved, HomeInv, OwnersInv, EachOwnOk, ForwardCheck, NothingToJoin, Close, Spliced, SpliceRefused;
    hide NewAlong, AlongLinks, SplicePairs, SplicePlan, CanSplice, Unregister, Note;
    PairClosed(w.p);
    OwnFacts(w);
    if ForwardCheck(w, s, d) == Ok {
      if NothingToJoin(w.p, s, d) {
        ClosesNew(w, s, d);
      } else {
        SplicedFits(w, s, d, f);
        SplicedNew(w, s, d, f);
        SameNew(w.p, w.p);
      }
    } else {
      SameNew(w.p, w.p);
    }
  }

  lemma {:induction false} ClosesNew(w: World, s: Ref, d: Ref)
    requires Inv(w) && s in w.p.ends && d in w.p.ends
    ensures Inv(Close(w, s).0) && d in Close(w, s).0.p.ends
    ensures NewAlong(w.p, Close(w, s).0.p) && NewAlong(w.p, Close(Close(w, s).0, d).0.p)
  {
    hide PairInv, Conserved, HomeInv, OwnersInv, EachOwnOk, Close, NewAlong;
    PairClosed(w.p);
    OwnFacts(w);
    CloseKeepsAll(w, s);
    var v := Close(w, s).0;
    PairClosed(v.p);
    OwnFacts(v);
    CloseLog(w, s);
    CloseLog(v, d);
    SameNew(w.p, Close(v, d).0.p);
  }

  lemma {:induction false} CloseLog(w: World, e: Ref)
    requires Inv(w) && e in w.p.ends
    ensures Close(w, e).0.p.log == w.p.log && Close(w, e).0.p.ends.Keys == w.p.ends.Keys
    ensures NewAlong(w.p, Close(w, e).0.p)
  {
    hide PairInv, Conserved, HomeInv, OwnersInv, EachOwnOk, CloseCheck, DroppedByPeer, Unregister;
    PairClosed(w.p);
  }

  lemma {:induction false} PairStepNew(w: World, s: PairStep)
    requires Inv(w) && Known(w, OnPair(s))
    ensures NewAlong(w.p, DoPair(w, s).0.p)
  {
    match s
    case OpenStep(r, x, ty, tr, tx, tracked) =>
      OpenLog(w, r, x, ty, tr, tx, tracked);
      hide Inv, Open;
    case SubmitStep(e, b, pinned, guestCheck, f) =>
      SubmitAlong(w, e, b, pinned, guestCheck, f);
      AlongNew(w.p, Submit(w, e, b, pinned, guestCheck, f).0.p);
      hide Inv, Submit, NewAlong;
    case ForwardStep(a, d, f) =>
      ForwardNew(w, a, d, f);
      hide Inv, Forward, NewAlong;
  }

  lemma {:induction false} OpenLog(w: World, r: Ref, x: Ref, ty: EndType, tr: Ref, tx: Ref, tracked: bool)
    requires CanOpen(w, r, x, tr, tx)
    ensures Open(w, r, x, ty, tr, tx, tracked).0.p.log == w.p.log
  {
    hide Inv, Register, Unregister, OpenHomes, HasRoom;
  }

  lemma {:induction false} EndStepNew(w: World, s: EndStep)
    requires Inv(w) && Known(w, OnEnd(s))
    ensures NewAlong(w.p, DoEnd(w, s).0.p)
  {
    hide AlongLinks, Close, Cancel, Deliver, PairInv, Conserved, HomeInv, OwnersInv, EachOwnOk, NewAlong;
    PairClosed(w.p);
    SameNew(w.p, w.p);
    match s
    case TakeStep(e, cleanup) =>
      DeliverAlong(w, e, cleanup);
      AlongNew(w.p, Deliver(w, e, cleanup).0.p);
    case CancelStep(e) =>
      CancelAlong(w, e);
      AlongNew(w.p, Cancel(w, e).0.p);
    case CloseStep(e) =>
      CloseAlong(w, e);
      AlongNew(w.p, Close(w, e).0.p);
  }

  lemma {:induction false} WaitEndNew(w: World, e: Ref, cleanup: Status)
    requires Inv(w) && e in w.p.ends
    ensures NewAlong(w.p, WaitEnd(w, e, cleanup).0.p)
  {
    hide AlongLinks, Deliver, PairInv, Conserved, HomeInv, OwnersInv, EachOwnOk, Waiting, NewAlong;
    WaitEndPairs(w, e, cleanup);
    DeliverAlong(w, e, cleanup);
    SameNew(w.p, w.p);
    AlongNew(w.p, Deliver(w, e, cleanup).0.p);
  }

  lemma {:induction false} ReleaseValueNew(w: World, v: Ref)
    requires Inv(w) && v in w.o.owners
    ensures NewAlong(w.p, ReleaseValue(w, v).0.p)
  {
    hide AlongLinks, Close, PairInv, Conserved, HomeInv, OwnersInv, EachOwnOk, Unbind, Frozen, NewAlong;
    SameNew(w.p, w.p);
    var e := w.o.owners[v].endpoint;
    if e != NULL {
      ValueOwns(w, v);
      if w.o.owns[e].lowerScope == NULL {
        UnbindWorld(w, e, v);
        CloseLog(w.(o := Unbind(w.o, e, v)), e);
      }
    }
  }

  /** Whatever a step transfers goes along a link. */
  lemma {:induction false} StepNew(w: World, s: Step)
    requires Inv(w) && Known(w, s)
    ensures NewAlong(w.p, Do(w, s).0.p)
  {
    hide Inv, NewAlong, DoPair, DoEnd, WaitEnd, ReleaseValue, EnvOk;
    if s.OnPair? {
      PairStepNew(w, s.pair);
    } else if s.OnEnd? {
      EndStepNew(w, s.end);
    } else if s.OnTable? && s.table.WaitEndStep? {
      WaitEndNew(w, s.table.e, s.table.cleanup);
    } else if s.OnValue? && s.value.ReleaseValueStep? {
      ReleaseValueNew(w, s.value.v);
    } else if s.Env? {
      EnvLog(w.p, s.q);
      SameNew(w.p, s.q);
    } else {
      OwnerStepsAdvance(w, s);
      SameNew(w.p, w.p);
    }
  }

  lemma {:induction false} EnvLog(p: Pairs, q: Pairs)
    requires EnvOk(p, q)
    ensures q.log == p.log
  {
  }

  // ---------------------------------------------------------------- whole runs

  /** At some point of the run `x` and `r` were linked. */
  ghost predicate MetDuring(w: World, steps: seq<Step>, x: Ref, r: Ref)
    requires Inv(w)
    decreases |steps|
  {
    || Peers(w.p, x, r)
    || (steps != [] && Known(w, steps[0]) && Inv(Do(w, steps[0]).0) && MetDuring(Do(w, steps[0]).0, steps[1..], x, r))
  }

  lemma {:induction false} RunNew(w: World, steps: seq<Step>, i: nat)
    requires Inv(w) && After(w, steps).Some?
    requires |w.p.log| <= i < |After(w, steps).value.p.log|
    ensures var t := After(w, steps).value.p.log[i]; MetDuring(w, steps, t.writer, t.reader)
    decreases |steps|
  {
    hide Inv, Known, Do, Peers;
    if steps != [] {
      DoKeeps(w, steps[0]);
      StepNew(w, steps[0]);
      var v := Do(w, steps[0]).0;
      RunLog(v, steps[1..]);
      if i < |v.p.log| {
        assert After(w, steps).value.p.log[i] == v.p.log[i];
        assert Peers(v.p, v.p.log[i].writer, v.p.log[i].reader) ==>
            MetDuring(v, steps[1..], v.p.log[i].writer, v.p.log[i].reader);
      } else {
        RunNew(v, steps[1..], i);
      }
    }
  }

  lemma {:induction false} RunLog(w: World, steps: seq<Step>)
    requires Inv(w) && After(w, steps).Some?
    ensures w.p.log <= After(w, steps).value.p.log
    decreases |steps|
  {
    hide Inv, Known, Do, Peers;
    if steps != [] {
      DoKeeps(w, steps[0]);
      StepNew(w, steps[0]);
      RunLog(Do(w, steps[0]).0, steps[1..]);
    }
  }

  /** In every run, forwards included, each transfer went between a writer and a
      reader that were linked at the time and stands in its place on both sides, and
      all writers together gave away what all readers together got. */
  lemma {:induction false} RunConserves(w: World, steps: seq<Step>, i: nat)
    requires Initial(w) && Inv(w) && After(w, steps).Some?
    ensures var v := After(w, steps).value;
            && Closed(v.p) && EndsOf(v.p, false) <= v.p.ends.Keys && EndsOf(v.p, true) <= v.p.ends.Keys
            && MovedTotal(v.p, EndsOf(v.p, false)) == MovedTotal(v.p, EndsOf(v.p, true))
            && (i < |v.p.log| ==> Stands(v.p, i) && MetDuring(w, steps, v.p.log[i].writer, v.p.log[i].reader))
  {
    assert w.p.log == [];
    hide Initial, Known, Do, Inv, Stands, Closed, MovedTotal, MetDuring, After, FutureInv, SingleOwner, EndsOf;
    EveryRun(w, steps);
    var v := After(w, steps).value;
    TotalsAgree(v);
    if i < |v.p.log| {
      RunNew(w, steps, i);
      TransferMatched(v, i);
    }
  }
}
