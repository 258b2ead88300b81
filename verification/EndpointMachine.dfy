/**
  The endpoint operations as the C code performs them: field by field, in
  place, with their copy loops. Each method is proved to compute the function
  of the same name in the value-level model.
 */
module EndpointMachine {
  import opened Common
  import opened AsyncState
  import opened EndpointModel
  import opened EndpointInvariant
  import opened EndpointFlow
  import opened EndpointOwnership
  import opened EndpointTransactions
  import opened EndpointHomes
  import M = EndpointModel
  import S = EndpointSteps
  import V = EndpointMoves
  import R = EndpointRuns

  lemma {:induction false} CancelFails(E: End, failure: Status)
    ensures Poison(E, failure).state == E.state
    ensures CancelRequested(E.state, false).Some? ==>
              Fail(E, failure) == Poison(E, failure).(state := CancelRequested(E.state, false).value)
    ensures CancelRequested(E.state, false).None? ==> Fail(E, failure) == Poison(E, failure)
  {
  }

  /** Spliced operations do not share host cells. */
  lemma {:induction false} SpliceApart(p: Pairs, s: Ref, d: Ref, plan: Splice)
    requires CanForward(p, s, d) && Conserved(p) && p.ends[d].peer in p.ends && p.ends[s].peer in p.ends && Closed(p)
    requires SplicePlan(p, p.ends[d].peer, p.ends[s].peer) == Some(plan) && plan.count != 0
    ensures var j, r, w := Join(p, s, d, p.ends[d].peer, p.ends[s].peer), p.ends[d].peer, p.ends[s].peer;
            && Transferable(j, r, w, plan.count) && j.ends[w].operation == p.ends[w].operation
            && j.ends[r].operation == p.ends[r].operation
            && (j.ends[r].ty.hasPayload && !(p.bufs[p.ends[w].operation].guest && p.bufs[p.ends[r].operation].guest) ==>
                  p.bufs[p.ends[w].operation].values != p.bufs[p.ends[r].operation].values)
  {
    S.SplicePlanOf(p, s, d, plan);
    ForwardFour(p, s, d);
    ForwardJoinable(p, s, d);
    var r, w := p.ends[d].peer, p.ends[s].peer;
    hide PairInv, SplicePlan, EndOk, FlowInv, ContentInv, LogOk;
    assert Apart(p.ends[r], p.bufs[p.ends[r].operation], p.ends[w], p.bufs[p.ends[w].operation]);
  }

  lemma {:induction false} JoinArgs(j: Pairs, r: Ref, w: Ref, count: nat)
    requires Transferable(j, r, w, count)
    ensures CanTransfer(j, r, w, count)
    ensures var sb, db := j.ends[w].operation, j.ends[r].operation; var hasPayload := j.ends[r].ty.hasPayload;
            && sb in j.bufs && db in j.bufs && sb != db && j.bufs[sb].values in j.cells && j.bufs[db].values in j.cells
            && (hasPayload ==>
                 j.bufs[sb].length <= |j.cells[j.bufs[sb].values]| && j.bufs[db].length <= |j.cells[j.bufs[db].values]|)
  {
  }

  lemma {:induction false} ScopeArgs(w: World, c: Ref)
    requires S.Inv(w) && c in w.o.codecs
    ensures OwnersInv(w.o) && NULL !in w.o.owners
  {
    hide PairInv, Conserved, HomeInv, EachOwnOk, PlaceOk;
  }

  lemma {:induction false} CommitStep(o: Owners, c: Ref)
    requires OwnersInv(o) && c in o.codecs && o.codecs[c].chain != []
    ensures Pinned(o, c) && o.owns[o.codecs[c].chain[0]].valueOwner in o.owners
    ensures OwnersInv(CommitOne(o, c)) && CommitAll(o, c) == CommitAll(CommitOne(o, c), c)
    ensures c in CommitOne(o, c).codecs && |CommitOne(o, c).codecs[c].chain| == |o.codecs[c].chain| - 1
  {
    ScopePinned(o, c);
    ScopeHead(o, c);
    CommitOneKeeps(o, c);
    hide OwnersInv, PlaceOk;
  }

  lemma {:induction false} RollbackLength(o: Owners, c: Ref)
    requires Pinned(o, c)
    ensures c in RollbackOne(o, c).codecs && |RollbackOne(o, c).codecs[c].chain| == |o.codecs[c].chain| - 1
  {
  }

  lemma {:induction false} ScopeDone(o: Owners, c: Ref)
    requires OwnersInv(o) && c in o.codecs && o.codecs[c].chain == []
    ensures CommitAll(o, c) == o && RollbackAll(o, c) == o
  {
    hide OwnersInv;
  }

  lemma {:induction false} CloseArgs(w: World, e: Ref)
    requires S.Inv(w) && e in w.p.ends
    ensures Closed(w.p) && w.p.ends.Keys == w.o.owns.Keys && w.p.ends[e].peer != e
    ensures w.o.owns[e].table != NULL ==> w.o.owns[e].table in w.o.tables
  {
    S.PairClosed(w.p);
    EndFacts(w.p, e);
    assert e != NULL;
    assert PlaceOk(w.o, e);
    hide PairInv, Conserved, HomeInv, OwnersInv, EachOwnOk, EndOk, OperationOk, LinkOk;
  }

  lemma {:induction false} UnregisterTables(o: Owners, e: Ref)
    requires e in o.owns
    ensures Unregister(o, e).tables.Keys == o.tables.Keys
  {
  }

  lemma {:induction false} CloseKnown(p: Pairs, e: Ref)
    requires Closed(p) && e in p.ends
    ensures e in ClosePairs(p, e).ends
  {
  }

  /** Storing the delivered state first makes no difference. */
  lemma {:induction false} ReleaseState(p: Pairs, e: Ref, s: EndpointState)
    requires Closed(p) && e in p.ends
    ensures var q := p.(ends := p.ends[e := p.ends[e].(state := s)]); Closed(q) && Release(q, e, s) == Release(p, e, s)
  {
  }

  /** The checks of `submit` allow the copy. */
  lemma {:induction false} SubmitFits(p: Pairs, e: Ref, b: Ref, guestCheck: Status, plan: Plan)
    requires S.Submittable(p, e, b, guestCheck) && Conserved(p) && Duty(p, e, b) && SubmitPlan(p, e, b) == Some(plan)
    ensures CanAdmit(p, e, b, plan) && (p.ends[e].peer != NULL ==> p.ends[e].peer in p.ends && p.ends[e].peer != e)
    ensures plan.count != 0 ==>
              p.ends[e].peer != NULL
              && Transferable(Lend(p, e, b, plan.count), ReaderOf(p, e), WriterOf(p, e), plan.count)
    ensures plan.count != 0 ==> p.ends[p.ends[e].peer].operation in p.bufs && p.ends[p.ends[e].peer].operation != b
    ensures plan.count != 0 && p.ends[ReaderOf(p, e)].ty.hasPayload ==>
              p.bufs[b].values != p.bufs[p.ends[p.ends[e].peer].operation].values
                || (p.bufs[b].guest && p.bufs[p.ends[p.ends[e].peer].operation].guest)
  {
    hide PairInv, Conserved, Duty, M.ValidateBuffer, Overlaps, EndOk, OperationOk, SubmitPlan, CanAdmit, Transferable;
    hide Lend, CanLend;
    S.PairClosed(p);
    hide Closed;
    EndFacts(p, e);
    if p.ends[e].peer == NULL {
      UnlinkedPlan(p, e, b);
    } else {
      LinkedPlan(p, e, b);
      LinkedCanAdmit(p, e, b, plan);
      if plan.count != 0 {
        LendTransferable(p, e, b, plan);
        SubmitCanLend(p, e, b, guestCheck);
        var peer := p.ends[e].peer;
        assert Apart(p.ends[e], p.bufs[b], p.ends[peer], p.bufs[p.ends[peer].operation]) by {
          LendApart(p, e, b, guestCheck, peer);
        }
      }
    }
  }

  lemma {:induction false} LendApart(p: Pairs, e: Ref, b: Ref, guestCheck: Status, peer: Ref)
    requires CanLend(p, e, b, guestCheck) && peer in p.ends && peer != e && p.ends[peer].operation != NULL
    ensures p.ends[peer].operation in p.bufs
    ensures Apart(p.ends[e], p.bufs[b], p.ends[peer], p.bufs[p.ends[peer].operation])
  {
    hide Apart, FlowInv, ContentInv, HostUnique, LogOk, Unshared, M.ValidateBuffer;
  }

  /** The table that an end is registered in exists. */
  lemma {:induction false} TableOf(w: World, e: Ref)
    requires S.Inv(w) && e in w.p.ends
    ensures e in w.o.owns && w.p.ends.Keys == w.o.owns.Keys
    ensures (w.o.owns[e].table != NULL ==> w.o.owns[e].table in w.o.tables)
  {
    S.OwnFacts(w);
    hide PairInv, Conserved, HomeInv, OwnInv, OwnersInv;
    if w.o.owns[e].table != NULL {
      V.TableKnown(w.o, e);
    }
  }

  /** Ends that were never opened are blank. */
  lemma {:induction false} BlankEnds(w: World, r: Ref, x: Ref)
    requires S.Inv(w) && r in w.p.ends && x in w.p.ends
    ensures (!w.p.ends[r].initialized ==> w.p.ends[r] == BLANK) && (!w.p.ends[x].initialized ==> w.p.ends[x] == BLANK)
    ensures NULL !in w.o.tables
  {
    S.OwnFacts(w);
    assert AddressesOk(w.o);
    hide Conserved, HomeInv, OwnInv, OwnersInv, LinksOk, OperationsOk, Unshared, LeasesHeld, Closed;
  }

  lemma {:induction false} SameKeys(w: World)
    requires S.Inv(w)
    ensures w.p.ends.Keys == w.o.owns.Keys
  {
    S.OwnFacts(w);
  }

  /** An end that a value has given up can be closed. */
  lemma {:induction false} CloseReady(w: World, e: Ref)
    requires S.Inv(w) && e in w.p.ends
    ensures Closed(w.p) && w.p.ends.Keys == w.o.owns.Keys && w.p.ends[e].peer != e
    ensures w.o.owns[e].table != NULL ==> w.o.owns[e].table in w.o.tables
  {
    TableOf(w, e);
    hide Conserved, HomeInv, OwnInv;
    S.PairClosed(w.p);
    EndFacts(w.p, e);
  }

  /** The memory that all endpoint objects live in. `lent`, `moved` and `hist`
      of the records, and `log`, are history that the code itself does not keep. */
  class Memory {
    var ends: map<Ref, End>
    var bufs: map<Ref, Buf>
    var cells: map<Ref, seq<Cell>>
    var log: seq<Transfer>
    var owns: map<Ref, Own>
    var tables: map<Ref, TableV>
    var owners: map<Ref, OwnerV>
    var codecs: map<Ref, CodecV>
    var homes: map<Ref, Home>
    var released: seq<Ref>
    var stale: bool

    ghost function P(): Pairs
      reads this
    {
      Pairs(ends, bufs, cells, log)
    }

    ghost function O(): Owners
      reads this
    {
      Owners(owns, tables, owners, codecs)
    }

    ghost function W(): World
      reads this
    {
      World(P(), O(), Homes(homes, released, stale))
    }

    // -------------------------------------------------------------- buffer copy

    /** The value arrays of the two buffers may only be the same guest memory. */
    ghost predicate CopyArgs(sb: Ref, db: Ref, hasPayload: bool)
      reads this
    {
      && sb in bufs && db in bufs && sb != db && bufs[sb].values in cells && bufs[db].values in cells
      && (hasPayload ==> bufs[sb].length <= |cells[bufs[sb].values]| && bufs[db].length <= |cells[bufs[db].values]|)
      && (hasPayload && !(bufs[sb].guest && bufs[db].guest) ==> bufs[sb].values != bufs[db].values)
    }

    /** Reads a batch from guest memory; a cell that cannot be lifted stops it. */
    method LiftBatch(values: Ref, at: nat, count: nat, f: Faults) returns (batch: seq<Cell>, status: Status)
      requires values in cells && at + count <= |cells[values]|
      ensures status == LiftStatus(cells[values][at..at + count], 0, f)
      ensures status == Ok ==> batch == cells[values][at..at + count]
    {
      ghost var all := cells[values][at..at + count];
      batch := [];
      var i := 0;
      while i < count
        invariant 0 <= i <= count && batch == all[..i]
        invariant LiftStatus(all, 0, f) == LiftStatus(all, i, f)
      {
        var c := cells[values][at + i];
        assert c == all[i];
        if i == f.liftAt && f.lift != Ok {
          return batch, f.lift;
        }
        if c.Empty? {
          return batch, Trapped;
        }
        batch := batch + [c];
        i := i + 1;
      }
      status := Ok;
    }

    /** Writes a batch to guest memory, up to the first fault. */
    method LowerBatch(values: Ref, at: nat, batch: seq<Cell>, f: Faults) returns (status: Status)
      requires values in cells && at + |batch| <= |cells[values]|
      modifies `cells
      ensures cells == old(cells)[values := Overwrite(old(cells)[values], at, batch[..LowerStop(|batch|, f)])]
      ensures status == if LowerStop(|batch|, f) < |batch| then f.lower else Ok
    {
      status := Ok;
      var i := 0;
      assert Overwrite(cells[values], at, batch[..0]) == cells[values];
      while i < |batch|
        invariant 0 <= i <= LowerStop(|batch|, f) <= |batch| && status == Ok
        invariant cells == old(cells)[values := Overwrite(old(cells)[values], at, batch[..i])]
      {
        if i == f.lowerAt && f.lower != Ok {
          status := f.lower;
          break;
        }
        cells := cells[values := cells[values][at + i := batch[i]]];
        assert cells[values] == Overwrite(old(cells)[values], at, batch[..i + 1]);
        i := i + 1;
      }
    }

    /** Moves a batch into host cells. */
    method MoveIn(values: Ref, at: nat, batch: seq<Cell>)
      requires values in cells && at + |batch| <= |cells[values]|
      modifies `cells
      ensures cells == old(cells)[values := Overwrite(old(cells)[values], at, batch)]
    {
      var i := 0;
      assert Overwrite(cells[values], at, batch[..0]) == cells[values];
      while i < |batch|
        invariant 0 <= i <= |batch|
        invariant cells == old(cells)[values := Overwrite(old(cells)[values], at, batch[..i])]
      {
        cells := cells[values := cells[values][at + i := batch[i]]];
        assert cells[values] == Overwrite(old(cells)[values], at, batch[..i + 1]);
        i := i + 1;
      }
      assert batch[..|batch|] == batch;
    }

    /** Clears host cells that were moved out. */
    method MoveOut(values: Ref, at: nat, count: nat)
      requires values in cells && at + count <= |cells[values]|
      modifies `cells
      ensures cells == old(cells)[values := Overwrite(old(cells)[values], at, Blank(count))]
    {
      var i := 0;
      assert Overwrite(cells[values], at, Blank(0)) == cells[values];
      while i < count
        invariant 0 <= i <= count
        invariant cells == old(cells)[values := Overwrite(old(cells)[values], at, Blank(i))]
      {
        cells := cells[values := cells[values][at + i := Empty]];
        assert cells[values] == Overwrite(old(cells)[values], at, Blank(i + 1));
        i := i + 1;
      }
    }

    /** Moves host cells to host cells, clearing each as it goes. */
    method MoveAcross(sv: Ref, sp: nat, dv: Ref, dp: nat, count: nat)
      requires sv in cells && dv in cells && sv != dv && sp + count <= |cells[sv]| && dp + count <= |cells[dv]|
      modifies `cells
      ensures cells == old(cells)[dv := Overwrite(old(cells)[dv], dp, old(cells)[sv][sp..sp + count])]
                                 [sv := Overwrite(old(cells)[sv], sp, Blank(count))]
    {
      ghost var all := cells[sv][sp..sp + count];
      var i := 0;
      assert Overwrite(cells[dv], dp, all[..0]) == cells[dv] && Overwrite(cells[sv], sp, Blank(0)) == cells[sv];
      while i < count
        invariant 0 <= i <= count
        invariant cells ==
                    old(cells)[dv := Overwrite(old(cells)[dv], dp, all[..i])][sv :=
                    Overwrite(old(cells)[sv], sp, Blank(i))]
      {
        assert cells[sv][sp + i] == all[i];
        cells := cells[dv := cells[dv][dp + i := cells[sv][sp + i]]];
        cells := cells[sv := cells[sv][sp + i := Empty]];
        assert cells[dv] == Overwrite(old(cells)[dv], dp, all[..i + 1]);
        assert cells[sv] == Overwrite(old(cells)[sv], sp, Blank(i + 1));
        i := i + 1;
      }
      assert all[..count] == all;
    }

    /** The outcome `out` of a copy between the buffers `sb` and `db` of an earlier state. */
    ghost predicate CopiedTo(bufs0: map<Ref, Buf>, cells0: map<Ref, seq<Cell>>, sb: Ref, db: Ref, out: CopyOut)
      reads this
      requires sb in bufs0 && db in bufs0
    {
      && bufs == bufs0[sb := out.src][db := out.dst]
      && var cells1 := cells0[bufs0[db].values := out.dc];
      && cells == if bufs0[sb].guest then cells1 else cells1[bufs0[sb].values := out.sc]
    }

    /** Moves `count` values between two lent buffers. Batches come and go as a
        whole, but a lifted guest batch is gone even if lowering it fails. */
    method CopyValues(sb: Ref, db: Ref, hasPayload: bool, count: nat, f: Faults)
        returns (status: Status, batch: seq<Cell>)
      requires CopyArgs(sb, db, hasPayload)
      modifies `bufs, `cells
      ensures !CanCopy(old(bufs[sb]), old(bufs[db]), old(cells[bufs[sb].values]), old(cells[bufs[db].values]),
                hasPayload, count) ==>
                status == InvalidArgument && bufs == old(bufs) && cells == old(cells)
      ensures CanCopy(old(bufs[sb]), old(bufs[db]), old(cells[bufs[sb].values]), old(cells[bufs[db].values]),
                hasPayload, count) ==>
                var out :=
                  M.CopyValues(old(bufs[sb]), old(bufs[db]), old(cells[bufs[sb].values]), old(cells[bufs[db].values]),
                  hasPayload, count, f);
                CopiedTo(old(bufs), old(cells), sb, db, out) && status == out.status
                  && (status == Ok ==> batch == out.batch)
    {
      batch := [];
      if count == 0 || bufs[sb].progress > bufs[sb].length || bufs[db].progress > bufs[db].length ||
         count > bufs[sb].length - bufs[sb].progress || count > bufs[db].length - bufs[db].progress {
        return InvalidArgument, batch;
      }
      var sv, sp, dv, dp := bufs[sb].values, bufs[sb].progress, bufs[db].values, bufs[db].progress;
      if !hasPayload {
        bufs := bufs[sb := bufs[sb].(progress := sp + count)];
        bufs := bufs[db := bufs[db].(progress := dp + count)];
        return Ok, UnitBatch(count);
      }
      if (bufs[sb].guest || bufs[db].guest) && f.ranges != Ok {
        return f.ranges, batch;
      }
      batch := cells[sv][sp..sp + count];
      if bufs[sb].guest {
        batch, status := LiftBatch(sv, sp, count, f);
        if status != Ok {
          return status, [];
        }
        bufs := bufs[sb := bufs[sb].(progress := sp + count)];
      }
      if bufs[db].guest {
        status := LowerBatch(dv, dp, batch, f);
        if status == Ok {
          status := f.commit;
        }
        if status != Ok {
          return status, [];
        }
        bufs := bufs[db := bufs[db].(progress := dp + count)];
        if !bufs[sb].guest {
          bufs := bufs[sb := bufs[sb].(progress := sp + count)];
          MoveOut(sv, sp, count);
        }
        status := f.destroy;
      } else {
        if f.receive != Ok {
          return f.receive, [];
        }
        if bufs[sb].guest {
          MoveIn(dv, dp, batch);
          bufs := bufs[db := bufs[db].(progress := dp + count)];
        } else {
          MoveAcross(sv, sp, dv, dp, count);
          bufs := bufs[db := bufs[db].(progress := dp + count)];
          bufs := bufs[sb := bufs[sb].(progress := sp + count)];
        }
        status := Ok;
      }
    }

    /** Brackets a copy with the guests' begin and end hooks. */
    method BufferCopy(sb: Ref, db: Ref, hasPayload: bool, count: nat, f: Faults)
        returns (status: Status, batch: seq<Cell>)
      requires CopyArgs(sb, db, hasPayload)
      requires CanCopy(bufs[sb], bufs[db], cells[bufs[sb].values], cells[bufs[db].values], hasPayload, count)
      modifies `bufs, `cells
      ensures var out :=
                M.BufferCopy(old(bufs[sb]), old(bufs[db]), old(cells[bufs[sb].values]), old(cells[bufs[db].values]),
                hasPayload, count, f);
              CopiedTo(old(bufs), old(cells), sb, db, out) && status == out.status
                && (status == Ok ==> batch == out.batch)
    {
      if hasPayload && bufs[sb].guest && f.beginSource != Ok {
        return f.beginSource, [];
      }
      if hasPayload && bufs[db].guest && f.beginDestination != Ok {
        return f.beginDestination, [];
      }
      status, batch := CopyValues(sb, db, hasPayload, count, f);
    }

    // -------------------------------------------------------------- rendezvous

    method RequestCancel(e: Ref) returns (ok: bool)
      requires e in ends
      modifies `ends
      ensures ok == CancelRequested(old(ends[e].state), false).Some?
      ensures ends ==
                if ok then old(ends)[e := old(ends[e]).(state := CancelRequested(old(ends[e].state), false).value)]
                else old(ends)
    {
      var cell := new StateCell(ends[e].state);
      ok := cell.RequestCancel(false);
      ends := ends[e := ends[e].(state := cell.s)];
    }

    method PoisonBoth(reader: Ref, writer: Ref, failure: Status)
      requires reader in ends && writer in ends && reader != writer
      modifies `ends
      ensures ends ==
                old(ends)[reader := Poison(old(ends[reader]), failure)][writer := Poison(old(ends[writer]), failure)]
    {
      ends := ends[reader := ends[reader].(failure := failure)];
      ends := ends[writer := ends[writer].(failure := failure)];
      ends := ends[reader := ends[reader].(available := NULL)];
      ends := ends[writer := ends[writer].(available := NULL)];
    }

    /** Poisons both ends; their waiting operations become cancellations. */
    method FailBoth(reader: Ref, writer: Ref, failure: Status) returns (status: Status)
      requires reader in ends && writer in ends && reader != writer
      modifies `ends
      ensures var R, W := old(ends[reader]), old(ends[writer]);
              if CancelRequested(R.state, false).None? then
                ends == old(ends)[reader := Poison(R, failure)][writer := Poison(W, failure)] && status == Trapped
              else
                && ends == old(ends)[reader := Fail(R, failure)][writer := Fail(W, failure)]
                && status == if CancelRequested(W.state, false).Some? then failure else Trapped
    {
      hide CancelRequested, Fail, Poison;
      ghost var R, W := old(ends[reader]), old(ends[writer]);
      CancelFails(R, failure);
      CancelFails(W, failure);
      PoisonBoth(reader, writer, failure);
      var ok := RequestCancel(reader);
      if ok {
        ok := RequestCancel(writer);
      }
      status := if ok then failure else Trapped;
    }

    ghost predicate TransferArgs(reader: Ref, writer: Ref, count: nat)
      reads this
    {
      && CanTransfer(P(), reader, writer, count)
      && CopyArgs(ends[writer].operation, ends[reader].operation, ends[reader].ty.hasPayload)
    }

    /** Copies between the two operations, and notes what they have moved. */
    method CopyBetween(reader: Ref, writer: Ref, count: nat, f: Faults) returns (status: Status, batch: seq<Cell>)
      requires TransferArgs(reader, writer, count)
      modifies `bufs, `cells
      ensures var p := old(P()); var out := Copied(p, reader, writer, count, f);
              && P() == Moved(p, p.ends[reader].operation, p.ends[writer].operation, out)
              && status == out.status && (status == Ok ==> batch == out.batch)
    {
      hide M.BufferCopy;
      ghost var out := Copied(P(), reader, writer, count, f);
      var rb, wb := ends[reader].operation, ends[writer].operation;
      ghost var src, dst := bufs[wb], bufs[rb];
      CopyShape(src, dst, cells[src.values], cells[dst.values], ends[reader].ty.hasPayload, count, f);
      status, batch := BufferCopy(wb, rb, ends[reader].ty.hasPayload, count, f);
      if status == Ok {
        var v, u := bufs[wb].(moved := bufs[wb].moved + batch), bufs[rb].(moved := bufs[rb].moved + batch);
        bufs := bufs[wb := v];
        bufs := bufs[rb := u];
      } else {
        assert out.src.moved + [] == out.src.moved && out.dst.moved + [] == out.dst.moved;
      }
    }

    /** A failed copy poisons both ends. */
    method TransferBuffers(reader: Ref, writer: Ref, count: nat, f: Faults) returns (status: Status)
      requires TransferArgs(reader, writer, count)
      modifies `ends, `bufs, `cells, `log
      ensures (P(), status) == M.TransferBuffers(old(P()), reader, writer, count, f)
    {
      hide Copied, Moved, CancelRequested, Poison, Fail, CopyArgs;
      var batch;
      status, batch := CopyBetween(reader, writer, count, f);
      if status == Ok {
        log := log + [Transfer(writer, reader, batch)];
      } else {
        status := FailBoth(reader, writer, status);
      }
    }

    // -------------------------------------------------------------- submit

    method ValidateBuffer(e: Ref, b: Ref, guestCheck: Status) returns (status: Status)
      requires e in ends && b in bufs && bufs[b].values in cells
      ensures status == M.ValidateBuffer(ends[e], bufs[b], cells[bufs[b].values], guestCheck)
    {
      var E, v := ends[e], bufs[b];
      if v.leased || v.length > COPY_MAX_LENGTH || (E.state.future && v.length != 1) {
        return InvalidArgument;
      }
      if !E.ty.hasPayload || v.length == 0 {
        return Ok;
      }
      if v.guest {
        if guestCheck != Ok {
          return guestCheck;
        }
        return if v.length > |cells[v.values]| then Trapped else Ok;
      }
      if v.length > |cells[v.values]| {
        return InvalidArgument;
      }
      var i := 0;
      while i < v.length
        invariant 0 <= i <= v.length
        invariant forall k :: 0 <= k < i ==> cells[v.values][k].Full? == !E.readable
      {
        if E.readable && cells[v.values][i].Full? {
          return InvalidArgument;
        }
        if !E.readable && cells[v.values][i].Empty? {
          return TypeMismatch;
        }
        i := i + 1;
      }
      status := Ok;
    }

    /** Preflights the notifications of a submission on copies of the states. */
    method PlanRendezvous(self: StateCell, peer: StateCell, readable: bool, length: nat, other: Buf)
      returns (ok: bool, count: nat, selfAvailable: bool, otherFinished: bool)
      requires self != peer
      modifies self, peer
      ensures var plan := M.PlanRendezvous(readable, old(self.s), old(peer.s), length, other);
              ok == plan.Some? && (ok ==> plan.value == Plan(self.s, peer.s, count, selfAvailable, otherFinished))
    {
      ok, count, selfAvailable, otherFinished := true, 0, false, false;
      if other.progress > other.length || !other.leased {
        ok := false;
        return;
      }
      var remaining := other.length - other.progress;
      if length != 0 && remaining != 0 {
        count := if length < remaining then length else remaining;
        ok := self.Notify(count);
        if ok {
          ok := peer.Notify(other.progress + count);
        }
        otherFinished := count == remaining;
      } else if length != 0 || (readable && remaining == 0) {
        ok := peer.Notify(0);
        otherFinished := true;
        selfAvailable := true;
      } else {
        ok := self.Notify(0);
      }
    }

    method PlanSubmission(e: Ref, b: Ref) returns (ok: bool, plan: Plan)
      requires Closed(P()) && e in ends && b in bufs
      ensures (if ok then Some(plan) else None) == SubmitPlan(P(), e, b)
    {
      var E := ends[e];
      var self := new StateCell(E.state);
      var peer := new StateCell(ZERO);
      var count, selfAvailable, otherFinished := 0, false, false;
      ok := self.BeginCopy();
      if ok {
        if E.peer == NULL {
          ok := self.s.peerDropped && self.s.pending;
        } else {
          peer := new StateCell(ends[E.peer].state);
          var other := ends[E.peer].available;
          if other == NULL {
            selfAvailable := true;
          } else {
            ok, count, selfAvailable,
              otherFinished := PlanRendezvous(self, peer, E.readable, bufs[b].length, bufs[other]);
          }
        }
      }
      plan := Plan(self.s, peer.s, count, selfAvailable, otherFinished);
    }

    ghost predicate AdmitArgs(e: Ref, b: Ref, plan: Plan)
      reads this
    {
      && CanAdmit(P(), e, b, plan) && (ends[e].peer != NULL ==> ends[e].peer in ends && ends[e].peer != e)
      && (plan.count != 0 ==>
           ends[e].peer != NULL && ends[ends[e].peer].operation in bufs && ends[ends[e].peer].operation != b)
      && (plan.count != 0 && ends[ReaderOf(P(), e)].ty.hasPayload ==>
            bufs[b].values != bufs[ends[ends[e].peer].operation].values
              || (bufs[b].guest && bufs[ends[ends[e].peer].operation].guest))
    }

    method LendBuffer(e: Ref, b: Ref, count: nat)
      requires e in ends && b in bufs && bufs[b].values in cells
      modifies `ends, `bufs
      ensures P() == Lend(old(P()), e, b, count)
    {
      var v := bufs[b].(progress := 0);
      v := v.(leased := true);
      v := v.(lent := cells[v.values], moved := []);
      bufs := bufs[b := v];
      var E := ends[e].(operation := b);
      if count != 0 {
        E := E.(state := E.state.(phase := Copying));
      }
      ends := ends[e := E];
    }

    method InstallPlan(e: Ref, b: Ref, plan: Plan)
      requires e in ends && (ends[e].peer != NULL ==> ends[e].peer in ends && ends[e].peer != e)
      modifies `ends
      ensures var E := old(ends[e]);
                var E' := E.(available := if plan.selfAvailable then b else NULL, state := plan.self);
              ends ==
                if E.peer == NULL then old(ends)[e := E']
                else old(ends)[e := E'][E.peer := AdmittedPeer(old(ends[ends[e].peer]), plan)]
    {
      var peer := ends[e].peer;
      var E := ends[e].(available := if plan.selfAvailable then b else NULL);
      E := E.(state := plan.self);
      ends := ends[e := E];
      if peer != NULL {
        var other := ends[peer].(state := plan.peer);
        if plan.otherFinished {
          other := other.(available := NULL);
        }
        ends := ends[peer := other];
      }
    }

    /** The part of `submit` that can no longer refuse. */
    method AdmitBuffer(e: Ref, b: Ref, plan: Plan, f: Faults)
      requires AdmitArgs(e, b, plan) && Closed(P())
      requires plan.count != 0 ==>
                 Transferable(Lend(P(), e, b, plan.count), ReaderOf(P(), e), WriterOf(P(), e), plan.count)
      modifies `ends, `bufs, `cells, `log
      ensures P() == Admit(old(P()), e, b, plan, f)
    {
      ghost var p := P();
      var E := ends[e];
      var peer := E.peer;
      LendBuffer(e, b, plan.count);
      if plan.count != 0 {
        TransferEnds(P(), ReaderOf(p, e), WriterOf(p, e), plan.count, f);
        var status := TransferBuffers(if E.readable then e else peer, if E.readable then peer else e, plan.count, f);
        if status != Ok {
          return;
        }
      }
      hide M.TransferBuffers, CanTransfer, Transferable;
      InstallPlan(e, b, plan);
      assert ends[e] == AdmittedEnd(E, b, plan);
    }

    method CheckClash(e: Ref, b: Ref) returns (status: Status)
      requires Closed(P()) && e in ends && b in bufs && ends.Keys == owns.Keys
      ensures status == SubmitClash(W(), e, b)
    {
      var E := ends[e];
      var other := if E.peer == NULL then NULL else ends[E.peer].available;
      if other != NULL && E.ty.hasPayload && Overlaps(bufs[b], bufs[other]) {
        return InvalidArgument;
      }
      if other != NULL && bufs[b].length != 0 && bufs[other].length > bufs[other].progress &&
         owns[e].table != NULL && owns[e].table == owns[E.peer].table && !NumericOrUnit(E.ty) {
        return Trapped;
      }
      return Ok;
    }

    /** The refusals of `submit`, in their order. */
    method CheckSubmit(e: Ref, b: Ref, pinned: bool, guestCheck: Status) returns (status: Status, plan: Plan)
      requires Closed(P()) && e in ends && b in bufs && ends.Keys == owns.Keys
      ensures status == SubmitCheck(W(), e, b, pinned, guestCheck)
      ensures status == Ok ==> SubmitPlan(P(), e, b) == Some(plan)
    {
      assert bufs[b].values in cells;
      hide Closed, M.ValidateBuffer, SubmitClash, SubmitPlan;
      plan := Plan(ZERO, ZERO, 0, false, false);
      if ends[e].failure != Ok {
        return ends[e].failure, plan;
      }
      if !Live(ends[e], owns[e]) || ends[e].operation != NULL || (owns[e].syncWaiter && !pinned)
        || ends[e].state.phase != Idle {
        return InvalidArgument, plan;
      }
      status := ValidateBuffer(e, b, guestCheck);
      if status != Ok {
        return;
      }
      status := CheckClash(e, b);
      if status != Ok {
        return;
      }
      var ok;
      ok, plan := PlanSubmission(e, b);
      status := if ok then Ok else Trapped;
    }

    method Submit(e: Ref, b: Ref, pinned: bool, guestCheck: Status, f: Faults) returns (status: Status)
      requires S.Inv(W()) && e in ends && b in bufs && Duty(P(), e, b)
      modifies `ends, `bufs, `cells, `log
      ensures (W(), status) == S.Submit(old(W()), e, b, pinned, guestCheck, f)
    {
      ghost var w := W();
      hide PairInv, Conserved, HomeInv, OwnersInv, EachOwnOk, SubmitCheck, SubmitPlan, Admit, Duty, S.Submittable;
      S.PairClosed(P());
      var plan;
      status, plan := CheckSubmit(e, b, pinned, guestCheck);
      if status == Ok {
        S.SubmitChecked(w, e, b, pinned, guestCheck);
        SubmitFits(P(), e, b, guestCheck, plan);
        AdmitBuffer(e, b, plan, f);
      }
    }

    // -------------------------------------------------------------- take, cancel, close

    method ReleaseBuffer(e: Ref, cleanup: Status) returns (status: Status)
      requires Closed(P()) && e in ends
      modifies `ends, `bufs
      ensures P() == Release(old(P()), e, old(ends[e].state))
      ensures status == if old(ends[e].failure) != Ok then old(ends[e].failure) else cleanup
    {
      var E := ends[e];
      if E.operation != NULL {
        var v := bufs[E.operation];
        E := E.(hist := E.hist + v.moved);
        bufs := bufs[E.operation := v.(leased := false)];
      } else {
        assert E.hist + [] == E.hist;
      }
      hide Closed;
      E := E.(operation := NULL);
      E := E.(available := NULL);
      ends := ends[e := E];
      return if E.failure != Ok then E.failure else cleanup;
    }

    method Take(e: Ref, cleanup: Status) returns (status: Status, payload: nat)
      requires Closed(P()) && e in ends && ends.Keys == owns.Keys
      modifies `ends, `bufs
      ensures (W(), status, payload) == M.Take(old(W()), e, cleanup)
    {
      hide Delivered, Release, Closed;
      if !Live(ends[e], owns[e]) {
        return InvalidArgument, 0;
      }
      if owns[e].syncWaiter {
        return Trapped, 0;
      }
      if !ends[e].state.pending {
        return Yielded, 0;
      }
      ghost var p := P();
      var cell := new StateCell(ends[e].state);
      var ok;
      ok, payload := cell.TakeEvent();
      if !ok {
        return Trapped, 0;
      }
      ReleaseState(p, e, cell.s);
      ends := ends[e := ends[e].(state := cell.s)];
      status := ReleaseBuffer(e, cleanup);
    }

    method Cancel(e: Ref) returns (status: Status)
      requires e in ends && ends.Keys == owns.Keys
      modifies `ends
      ensures (W(), status) == M.Cancel(old(W()), e)
    {
      if !Live(ends[e], owns[e]) || owns[e].syncWaiter {
        return Trapped;
      }
      hide CancelRequested;
      var ok := RequestCancel(e);
      if !ok {
        return Trapped;
      }
      ends := ends[e := ends[e].(available := NULL)];
      assert ends == old(ends)[e := CancelledEnd(old(ends[e]))];
      status := Ok;
    }

    /** Frees the slot of a registered end. */
    method DropHandle(e: Ref)
      requires e in owns && owns[e].table != NULL && owns[e].table in tables
      modifies `owns, `tables
      ensures O() == Unregister(old(O()), e)
    {
      var own := owns[e];
      var table := tables[own.table];
      tables := tables[own.table := table.(entries := table.entries - {own.handle})];
      own := own.(setHandle := 0);
      own := own.(table := NULL);
      own := own.(handle := 0);
      owns := owns[e := own];
    }

    /** The closed notification of a creation pair. */
    method PairClosed(e: Ref)
      requires e in ends
      modifies `released, `stale
      ensures Homes(homes, released, stale) == Note(Homes(homes, old(released), old(stale)), ends, e)
    {
      if e in homes && homes[e].tracked {
        if homes[e].pair in released {
          stale := true;
        } else if ends[e].closed && homes[e].other in ends && ends[homes[e].other].closed {
          released := released + [homes[e].pair];
        }
      }
    }

    /** Cuts the link of `e`; its peer gets the prepared state. */
    method CloseEnd(e: Ref, dropped: EndpointState)
      requires e in ends && (ends[e].peer != NULL ==> ends[e].peer in ends && ends[e].peer != e)
      requires ends[e].peer != NULL ==> DroppedByPeer(ends[ends[e].peer].state) == Some(dropped)
      requires Closed(P())
      modifies `ends
      ensures P() == ClosePairs(old(P()), e)
    {
      var peer, E := ends[e].peer, ends[e];
      E := E.(peer := NULL);
      E := E.(closed := true);
      ends := ends[e := E];
      if peer != NULL {
        var F := ends[peer];
        F := F.(peer := NULL);
        F := F.(available := NULL);
        F := F.(state := dropped);
        ends := ends[peer := F];
      }
    }

    method CheckClose(e: Ref) returns (status: Status, dropped: EndpointState)
      requires Closed(P()) && e in ends && ends.Keys == owns.Keys
      requires owns[e].table != NULL ==> owns[e].table in tables
      ensures status == CloseCheck(W(), e)
      ensures status == Ok && ends[e].peer != NULL ==> DroppedByPeer(ends[ends[e].peer].state) == Some(dropped)
    {
      var E := ends[e];
      dropped := ZERO;
      if !Live(E, owns[e]) {
        return InvalidArgument, dropped;
      }
      if E.operation != NULL || owns[e].syncWaiter || (E.state.phase != Idle && E.state.phase != Done) {
        return Trapped, dropped;
      }
      hide DroppedByPeer;
      if E.peer != NULL {
        var cell := new StateCell(ends[E.peer].state);
        var ok := cell.PeerDropped();
        if ends[E.peer].peer != e || !ok {
          return Trapped, dropped;
        }
        dropped := cell.s;
      }
      if owns[e].table != NULL &&
         (owns[e].handle !in tables[owns[e].table].entries || tables[owns[e].table].entries[owns[e].handle] != e) {
        return Trapped, dropped;
      }
      status := Ok;
    }

    method Close(e: Ref) returns (status: Status)
      requires Closed(P()) && e in ends && ends.Keys == owns.Keys && ends[e].peer != e
      requires owns[e].table != NULL ==> owns[e].table in tables
      modifies `ends, `owns, `tables, `released, `stale
      ensures (W(), status) == M.Close(old(W()), e)
    {
      hide DroppedByPeer, ClosePairs, Note, CloseCheck;
      var dropped;
      status, dropped := CheckClose(e);
      if status == Ok {
        if owns[e].table != NULL {
          DropHandle(e);
        }
        CloseEnd(e, dropped);
        CloseKnown(old(P()), e);
        PairClosed(e);
      }
    }

    // -------------------------------------------------------------- forward

    /** Preflights a splice on copies of the states. */
    method PlanOverlap(read: StateCell, write: StateCell, rb: Buf, wb: Buf)
        returns (ok: bool, count: nat, readDone: bool, writeDone: bool)
      requires read != write
      modifies read, write
      ensures var plan := M.PlanSplice(old(read.s), old(write.s), rb, wb);
              ok == plan.Some? && (ok ==> plan.value == Splice(read.s, write.s, count, readDone, writeDone))
    {
      ok, count, readDone, writeDone := true, 0, false, false;
      if !rb.leased || !wb.leased || rb.progress > rb.length || wb.progress > wb.length || read.s.phase != Copying
        || write.s.phase != Copying {
        ok := false;
        return;
      }
      var rr, wr := rb.length - rb.progress, wb.length - wb.progress;
      if rr != 0 && wr != 0 {
        count := if rr < wr then rr else wr;
        ok := read.Notify(rb.progress + count);
        if ok {
          ok := write.Notify(wb.progress + count);
        }
        readDone, writeDone := count == rr, count == wr;
      } else if wr == 0 {
        ok := write.Notify(0);
        writeDone := true;
      } else {
        ok := read.Notify(0);
        readDone := true;
      }
    }

    method PlanForward(reader: Ref, writer: Ref) returns (ok: bool, plan: Splice)
      requires Closed(P()) && reader in ends && writer in ends && ends.Keys == owns.Keys
      ensures ok == (SplicePlan(P(), reader, writer).Some? && !SpliceRefused(W(), reader, writer))
      ensures ok ==> SplicePlan(P(), reader, writer) == Some(plan)
    {
      var R, X := ends[reader], ends[writer];
      var read := new StateCell(R.state);
      var write := new StateCell(X.state);
      var count, readDone, writeDone := 0, false, false;
      ok := true;
      if R.available != NULL && X.available != NULL {
        var rb, wb := bufs[R.available], bufs[X.available];
        hide Closed, M.PlanSplice;
        if R.available != R.operation || X.available != X.operation {
          ok := false;
        } else if rb.progress < rb.length && wb.progress < wb.length &&
                  ((R.ty.hasPayload && Overlaps(rb, wb)) ||
                   (owns[reader].table != NULL && owns[reader].table == owns[writer].table && !NumericOrUnit(R.ty))) {
          ok := false;
        } else {
          ok, count, readDone, writeDone := PlanOverlap(read, write, rb, wb);
        }
      }
      plan := Splice(read.s, write.s, count, readDone, writeDone);
    }

    method JoinEnds(source: Ref, destination: Ref, reader: Ref, writer: Ref)
      requires FourEnds(P(), source, destination, reader, writer)
      modifies `ends
      ensures P() == Join(old(P()), source, destination, reader, writer)
    {
      var S, D := ends[source], ends[destination];
      S := S.(peer := NULL);
      D := D.(peer := NULL);
      S := S.(closed := true);
      D := D.(closed := true);
      ends := ends[source := S];
      ends := ends[destination := D];
      ends := ends[reader := ends[reader].(peer := writer)];
      ends := ends[writer := ends[writer].(peer := reader)];
    }

    method InstallSplice(reader: Ref, writer: Ref, plan: Splice)
      requires reader in ends && writer in ends && reader != writer
      modifies `ends
      ensures ends ==
                old(ends)[reader :=
                old(ends[reader]).(state := plan.read, available := if plan.readDone then NULL
                else old(ends[reader]).available)]
                               [writer :=
                                old(ends[writer]).(state := plan.write, available := if plan.writeDone then NULL
                                else old(ends[writer]).available)]
    {
      var R, X := ends[reader], ends[writer];
      R := R.(state := plan.read);
      X := X.(state := plan.write);
      if plan.readDone {
        R := R.(available := NULL);
      }
      if plan.writeDone {
        X := X.(available := NULL);
      }
      ends := ends[reader := R];
      ends := ends[writer := X];
    }

    /** Closes `source` and `destination` and makes their peers peers. */
    method SpliceEnds(source: Ref, destination: Ref, plan: Splice, f: Faults) returns (status: Status)
      requires CanForward(P(), source, destination) && Conserved(P())
      requires Closed(P()) && ends[destination].peer in ends && ends[source].peer in ends
      requires SplicePlan(P(), ends[destination].peer, ends[source].peer) == Some(plan)
      requires CanSplice(P(), source, destination, plan)
      modifies `ends, `bufs, `cells, `log
      ensures (P(), status) == SplicePairs(old(P()), source, destination, plan, f)
    {
      var reader, writer := ends[destination].peer, ends[source].peer;
      ghost var p := P();
      hide PairInv, Conserved, SplicePlan, CanForward, Closed, M.TransferBuffers, CanTransfer, Transferable;
      hide SplicePairs;
      ForwardFour(p, source, destination);
      S.SplicePlanOf(p, source, destination, plan);
      SpliceForm(p, source, destination, plan, f);
      SpliceCopiedJoined(p, source, destination, plan, f);
      if plan.count != 0 {
        SpliceApart(p, source, destination, plan);
      }
      status := Ok;
      JoinEnds(source, destination, reader, writer);
      if plan.count != 0 {
        assert TransferArgs(reader, writer, plan.count) by {
          JoinArgs(P(), reader, writer, plan.count);
        }
        status := TransferBuffers(reader, writer, plan.count, f);
        if status != Ok {
          return;
        }
      }
      assert ends == Join(p, source, destination, reader, writer).ends;
      InstallSplice(reader, writer, plan);
    }

    method CheckForwardable(e: Ref) returns (ok: bool)
      requires Closed(P()) && e in ends && ends.Keys == owns.Keys
      ensures ok == Forwardable(W(), e)
    {
      var E, own := ends[e], owns[e];
      if !MovableIdle(E, own) || own.lowerScope != NULL {
        return false;
      }
      if own.table != NULL &&
         (own.table !in tables || own.handle !in tables[own.table].entries
           || tables[own.table].entries[own.handle] != e) {
        return false;
      }
      return E.peer == NULL || (ends[E.peer].peer == e && !ends[E.peer].closed);
    }

    method CheckForward(source: Ref, destination: Ref) returns (status: Status)
      requires Closed(P()) && source in ends && destination in ends && ends.Keys == owns.Keys
      ensures status == ForwardCheck(W(), source, destination)
    {
      hide Forwardable, Closed;
      var first := CheckForwardable(source);
      var second := CheckForwardable(destination);
      if !first || !second || !ends[source].readable || ends[destination].readable {
        return Trapped;
      }
      return if ends[source].ty != ends[destination].ty then TypeMismatch else Ok;
    }

    /** Closes both ends of a forward that has nothing to join. */
    method CloseInTurn(source: Ref, destination: Ref) returns (status: Status)
      requires S.Inv(W()) && source in ends && destination in ends
      modifies `ends, `owns, `tables, `released, `stale
      ensures S.Inv(M.Close(old(W()), source).0) && destination in M.Close(old(W()), source).0.p.ends
      ensures (W(), status) == var (v, first) := M.Close(old(W()), source);
                               if first == Ok then M.Close(v, destination) else (v, first)
    {
      hide M.Close, PairInv, Conserved, HomeInv, OwnersInv, EachOwnOk, EndOk, OperationOk, LinkOk;
      S.CloseKeepsAll(W(), source);
      CloseArgs(W(), source);
      status := Close(source);
      if status == Ok {
        CloseArgs(W(), destination);
        status := Close(destination);
      }
    }

    method DropBoth(source: Ref, destination: Ref)
      requires S.Inv(W()) && source in ends && destination in ends && source != destination
      modifies `owns, `tables
      ensures destination in Unregister(old(O()), source).owns
      ensures O() == Unregister(Unregister(old(O()), source), destination)
    {
      hide PairInv, Conserved, HomeInv, OwnersInv, EachOwnOk, EndOk, OperationOk, LinkOk, Closed;
      CloseArgs(W(), source);
      CloseArgs(W(), destination);
      S.UnregisterOther(O(), source, destination);
      UnregisterTables(O(), source);
      if owns[source].table != NULL {
        DropHandle(source);
      }
      if owns[destination].table != NULL {
        DropHandle(destination);
      }
    }

    /** The part of `forward` that can no longer refuse. */
    method CommitForward(source: Ref, destination: Ref, plan: Splice, f: Faults) returns (status: Status)
      requires S.Inv(W()) && source in ends && destination in ends && ForwardCheck(W(), source, destination) == Ok
      requires !NothingToJoin(P(), source, destination) && ends[destination].peer in ends && ends[source].peer in ends
      requires SplicePlan(P(), ends[destination].peer, ends[source].peer) == Some(plan)
      modifies `ends, `bufs, `cells, `log, `owns, `tables, `released, `stale
      ensures (W(), status) == S.Spliced(old(W()), source, destination, f)
    {
      ghost var w := W();
      hide PairInv, Conserved, HomeInv, OwnersInv, EachOwnOk, ForwardCheck, SplicePlan, SplicePairs, CanSplice;
      hide CanForward, NothingToJoin;
      hide Closed, Unregister, Note, Shift, S.HeldAtRest;
      S.SplicedFits(w, source, destination, f);
      S.ForwardChecked(w, source, destination);
      DropBoth(source, destination);
      status := SpliceEnds(source, destination, plan, f);
      PairClosed(source);
      PairClosed(destination);
    }

    method Forward(source: Ref, destination: Ref, f: Faults) returns (status: Status)
      requires S.Inv(W()) && source in ends && destination in ends
      modifies `ends, `bufs, `cells, `log, `owns, `tables, `released, `stale
      ensures (W(), status) == S.Forward(old(W()), source, destination, f)
    {
      hide M.Close, PairInv, Conserved, HomeInv, OwnersInv, EachOwnOk, ForwardCheck, SpliceRefused, SplicePlan;
      hide S.Spliced, Closed, CanSplice, SplicePairs, Unregister, Shift, S.HeldAtRest;
      CloseArgs(W(), source);
      status := CheckForward(source, destination);
      if status != Ok {
        return;
      }
      var writer, reader := ends[source].peer, ends[destination].peer;
      if writer == destination || writer == NULL || reader == NULL {
        status := CloseInTurn(source, destination);
        return;
      }
      S.SplicedFits(W(), source, destination, f);
      var ok, plan := PlanForward(reader, writer);
      if !ok {
        return Trapped;
      }
      status := CommitForward(source, destination, plan, f);
    }

    // -------------------------------------------------------------- open

    /** `turbowasm_component_waitable_register`. */
    method Register(e: Ref, t: Ref) returns (status: Status)
      requires e in owns && (t == NULL || t in tables)
      modifies `owns, `tables
      ensures status == (if R.Room(old(O()), t) then Ok else OutOfMemory)
      ensures O() == if status == Ok then R.Register(old(O()), e, t) else old(O())
    {
      if t == NULL {
        return Ok;
      }
      var table := tables[t];
      if !HasRoom(table) {
        return OutOfMemory;
      }
      var handle := table.next;
      tables := tables[t := table.(entries := table.entries[handle := e], next := handle + 1)];
      owns := owns[e := owns[e].(table := t, handle := handle)];
      return Ok;
    }

    /** Registers both ends; the first registration is undone if the second fails. */
    method RegisterBoth(r: Ref, x: Ref, tr: Ref, tx: Ref) returns (status: Status)
      requires r in owns && x in owns && r != x && owns[r].table == NULL && (tr == NULL || tr in tables)
      requires (tx == NULL || tx in tables) && NULL !in tables
      modifies `owns, `tables
      ensures R.Room(old(O()), tr) ==>
                r in R.Register(old(O()), r, tr).owns && (tx == NULL || tx in R.Register(old(O()), r, tr).tables)
      ensures if !R.Room(old(O()), tr) then O() == old(O()) && status == OutOfMemory
              else if !R.Room(R.Register(old(O()), r, tr), tx) then
                O() == Unregister(R.Register(old(O()), r, tr), r) && status == OutOfMemory
              else O() == R.Register(R.Register(old(O()), r, tr), x, tx) && status == Ok
    {
      status := Register(r, tr);
      if status != Ok {
        return;
      }
      status := Register(x, tx);
      if status != Ok && owns[r].table != NULL {
        DropHandle(r);
      }
    }

    /** Takes a half-opened pair back. */
    method BlankPair(r: Ref, x: Ref, ghost before: map<Ref, End>, ty: EndType)
      requires r in before && x in before && before[r] == BLANK && before[x] == BLANK
      requires ends == before[r := R.Opened(true, ty, x)][x := R.Opened(false, ty, r)]
      modifies `ends
      ensures ends == before
    {
      ends := ends[r := BLANK];
      ends := ends[x := BLANK];
    }

    method SetHomes(r: Ref, x: Ref, tracked: bool)
      modifies `homes
      ensures W().h == R.OpenHomes(old(W().h), r, x, tracked)
    {
      homes := homes[r := Home(r, x, tracked)];
      homes := homes[x := Home(r, r, tracked)];
    }

    /** Opens a pair on two unused ends, and undoes everything if one of them
        cannot be registered. */
    method OpenPair(r: Ref, x: Ref, ty: EndType, tr: Ref, tx: Ref, tracked: bool) returns (status: Status)
      requires R.CanOpen(W(), r, x, tr, tx)
      modifies `ends, `owns, `tables, `homes
      ensures (W(), status) == R.Open(old(W()), r, x, ty, tr, tx, tracked)
    {
      hide S.Inv, R.Room, R.Register, Unregister, R.OpenHomes;
      BlankEnds(W(), r, x);
      if r == x || ends[r].initialized || ends[x].initialized || owns[r].table != NULL || owns[x].table != NULL {
        return InvalidArgument;
      }
      ghost var before := ends;
      ends := ends[r := R.Opened(true, ty, x)];
      ends := ends[x := R.Opened(false, ty, r)];
      status := RegisterBoth(r, x, tr, tx);
      if status != Ok {
        BlankPair(r, x, before, ty);
        return;
      }
      SetHomes(r, x, tracked);
    }

    // -------------------------------------------------------------- tables and values

    method Attach(e: Ref, t: Ref) returns (status: Status)
      requires S.Inv(W()) && e in ends && t in tables
      modifies `owns, `tables
      ensures (W(), status) == V.Attach(old(W()), e, t)
    {
      hide S.Inv;
      V.OwnShape(W(), e);
      if !V.MovableReadable(ends[e], owns[e]) || owns[e].table != NULL {
        return Trapped;
      }
      var table := tables[t];
      if !HasRoom(table) {
        return OutOfMemory;
      }
      var handle := table.next;
      tables := tables[t := table.(entries := table.entries[handle := e], next := handle + 1)];
      owns := owns[e := owns[e].(table := t, handle := handle)];
      return Ok;
    }

    method Detach(e: Ref) returns (status: Status)
      requires S.Inv(W()) && e in ends
      modifies `owns, `tables
      ensures (W(), status) == V.Detach(old(W()), e)
    {
      hide S.Inv;
      V.OwnShape(W(), e);
      if !V.MovableReadable(ends[e], owns[e]) || owns[e].table == NULL {
        return Trapped;
      }
      TableOf(W(), e);
      DropHandle(e);
      return Ok;
    }

    /** Puts an end into a fresh value; `v` is NULL if there is no memory for it. */
    method IntoValue(e: Ref, v: Ref) returns (status: Status)
      requires S.Inv(W()) && e in ends && v !in owners
      modifies `owns, `owners
      ensures (W(), status) == V.IntoValue(old(W()), e, v)
    {
      hide S.Inv;
      V.OwnShape(W(), e);
      if !V.MovableReadable(ends[e], owns[e]) || owns[e].table != NULL {
        return Trapped;
      }
      if v == NULL {
        return OutOfMemory;
      }
      owners := owners[v := OwnerV(e, false, false)];
      owns := owns[e := owns[e].(valueOwner := v)];
      return Ok;
    }

    /** Takes the end out of a value and frees the value's record. */
    method TakeValue(v: Ref) returns (status: Status)
      requires S.Inv(W()) && v in owners
      modifies `owns, `owners
      ensures (W(), status) == V.TakeValue(old(W()), v)
    {
      hide S.Inv;
      var e := owners[v].endpoint;
      if e == NULL {
        return InvalidArgument;
      }
      V.ValueOwns(W(), v);
      if owns[e].lowerScope != NULL || (owners[v].adopted && !owners[v].admitted) {
        return Trapped;
      }
      owns := owns[e := owns[e].(valueOwner := NULL)];
      owners := owners - {v};
      return Ok;
    }

    /** Destroys a value, and with it the end it holds. */
    method ReleaseValue(v: Ref) returns (status: Status)
      requires S.Inv(W()) && v in owners
      modifies `ends, `owns, `tables, `owners, `released, `stale
      ensures (W(), status) == V.ReleaseValue(old(W()), v)
    {
      hide S.Inv, M.Close, Live;
      var e := owners[v].endpoint;
      if e == NULL {
        owners := owners - {v};
        return Ok;
      }
      V.ValueOwns(W(), v);
      if owns[e].lowerScope != NULL {
        return Trapped;
      }
      ghost var w := W();
      V.UnbindWorld(w, e, v);
      SameKeys(w);
      var adopted := owners[v].adopted && !owners[v].admitted;
      owns := owns[e := owns[e].(valueOwner := NULL)];
      owners := owners - {v};
      if adopted {
        return Ok;
      }
      assert W() == w.(o := Unbind(w.o, e, v));
      CloseReady(W(), e);
      status := Close(e);
    }

    /** Lifts the end behind a handle into a fresh value. */
    method LiftValue(c: Ref, h: nat, ty: EndType, v: Ref) returns (status: Status)
      requires S.Inv(W()) && c in codecs && v !in owners
      modifies `owns, `tables, `owners
      ensures (W(), status) == V.Lift(old(W()), c, h, ty, v)
    {
      hide S.Inv, V.Detach, V.IntoValue, V.MovableReadable;
      V.CodecTable(W(), c);
      var t := codecs[c].table;
      if h !in tables[t].entries {
        return Trapped;
      }
      var e := tables[t].entries[h];
      if owns[e].table != t || owns[e].handle != h || ends[e].ty.future != ty.future {
        return Trapped;
      }
      if !V.MovableReadable(ends[e], owns[e]) {
        return Trapped;
      }
      if ends[e].ty != ty {
        return TypeMismatch;
      }
      if v == NULL {
        return OutOfMemory;
      }
      ghost var w := W();
      V.DetachKeeps(w, e);
      V.TableNotNull(w, c);
      V.LiftFits(w, e);
      status := Detach(e);
      status := IntoValue(e, v);
    }

    // -------------------------------------------------------------- lowering scopes

    method LowerValue(c: Ref, v: Ref, ty: EndType) returns (status: Status)
      requires S.Inv(W()) && c in codecs && v in owners
      modifies `owns, `tables, `codecs
      ensures (W(), status) == V.Lower(old(W()), c, v, ty)
    {
      hide PairInv, Conserved, HomeInv, OwnersInv, EachOwnOk, Frozen;
      V.CodecTable(W(), c);
      var e := owners[v].endpoint;
      if e == NULL {
        return TypeMismatch;
      }
      V.ValueOwns(W(), v);
      if ends[e].ty != ty {
        return TypeMismatch;
      }
      if owns[e].lowerScope != NULL {
        return Trapped;
      }
      var t := codecs[c].table;
      var table := tables[t];
      if !HasRoom(table) {
        return OutOfMemory;
      }
      var handle := table.next;
      tables := tables[t := table.(entries := table.entries[handle := e], next := handle + 1)];
      var own := owns[e];
      own := own.(lowerScope := c);
      own := own.(lowerHandle := handle);
      owns := owns[e := own];
      codecs := codecs[c := codecs[c].(chain := [e] + codecs[c].chain)];
      status := Ok;
    }

    method PreflightCodec(c: Ref, commit: bool) returns (ok: bool)
      requires c in codecs && NULL !in owners
      ensures ok == Preflight(O(), c, commit)
    {
      var i := 0;
      var chain := codecs[c].chain;
      while i < |chain|
        invariant 0 <= i <= |chain|
        invariant forall k :: 0 <= k < i ==> Staged(O(), c, chain[k], commit)
      {
        var e := chain[i];
        ok := false;
        if e in owns && owns[e].lowerScope == c && owns[e].table == NULL && owns[e].valueOwner in owners {
          var value, t := owners[owns[e].valueOwner], codecs[c].table;
          ok := value.endpoint == e && (commit && value.adopted ==> value.admitted) &&
          t in tables && owns[e].lowerHandle in tables[t].entries && tables[t].entries[owns[e].lowerHandle] == e;
        }
        assert ok == Staged(O(), c, e, commit);
        if !ok {
          return;
        }
        i := i + 1;
      }
      ok := true;
    }

    /** Publishes the first end of the scope; its value refers to nothing any more. */
    method CommitFirst(c: Ref)
      requires Pinned(O(), c) && owns[codecs[c].chain[0]].valueOwner in owners
      modifies `owns, `owners, `codecs
      ensures O() == CommitOne(old(O()), c)
    {
      var e := codecs[c].chain[0];
      var own := owns[e];
      own := own.(table := codecs[c].table);
      own := own.(handle := own.lowerHandle);
      owners := owners[own.valueOwner := INERT];
      own := own.(valueOwner := NULL);
      codecs := codecs[c := codecs[c].(chain := codecs[c].chain[1..])];
      own := own.(lowerScope := NULL);
      own := own.(lowerHandle := 0);
      owns := owns[e := own];
    }

    /** Gives the handle of the first end of the scope back. */
    method RollbackFirst(c: Ref)
      requires Pinned(O(), c)
      modifies `owns, `tables, `codecs
      ensures O() == RollbackOne(old(O()), c)
    {
      var e, t := codecs[c].chain[0], codecs[c].table;
      var own := owns[e];
      tables := tables[t := tables[t].(entries := tables[t].entries - {own.lowerHandle})];
      codecs := codecs[c := codecs[c].(chain := codecs[c].chain[1..])];
      own := own.(lowerScope := NULL);
      own := own.(lowerHandle := 0);
      owns := owns[e := own];
    }

    method CommitScope(c: Ref)
      requires OwnersInv(O()) && c in codecs
      modifies `owns, `owners, `codecs
      ensures O() == CommitAll(old(O()), c)
    {
      hide OwnersInv, CommitAll, CommitOne, Pinned;
      ghost var o := O();
      while codecs[c].chain != []
        invariant OwnersInv(O()) && c in codecs && CommitAll(O(), c) == CommitAll(o, c)
        decreases |codecs[c].chain|
      {
        CommitStep(O(), c);
        CommitFirst(c);
      }
      ScopeDone(O(), c);
    }

    method RollbackScope(c: Ref)
      requires OwnersInv(O()) && c in codecs
      modifies `owns, `tables, `codecs
      ensures O() == RollbackAll(old(O()), c)
    {
      hide OwnersInv, RollbackAll, RollbackOne, Pinned;
      ghost var o := O();
      while codecs[c].chain != []
        invariant OwnersInv(O()) && c in codecs && RollbackAll(O(), c) == RollbackAll(o, c)
        decreases |codecs[c].chain|
      {
        RollbackStep(O(), c);
        RollbackLength(O(), c);
        RollbackFirst(c);
      }
      ScopeDone(O(), c);
    }

    method FinishCodec(c: Ref, commit: bool) returns (status: Status)
      requires S.Inv(W()) && c in codecs
      modifies `owns, `tables, `owners, `codecs
      ensures (W(), status) == V.Finish(old(W()), c, commit)
    {
      hide S.Inv, OwnersInv, Preflight, CommitAll, RollbackAll;
      ScopeArgs(W(), c);
      var ok := PreflightCodec(c, commit);
      if !ok {
        return Trapped;
      }
      if commit {
        CommitScope(c);
      } else {
        RollbackScope(c);
      }
      status := Ok;
    }
  }
}
