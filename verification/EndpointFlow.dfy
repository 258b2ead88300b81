/**
  Conservation: the elements that leave writer buffers are exactly the elements
  that enter reader buffers, in order, none lost and none duplicated.
 */
module EndpointFlow {
  import opened Common
  import opened AsyncState
  import opened EndpointModel
  import opened EndpointInvariant

  /** The elements that the committed transfers of `log` moved through `e`. */
  function Flow(log: seq<Transfer>, e: Ref, reading: bool): seq<Cell> {
    if log == [] then []
    else
      var t := log[|log| - 1];
      Flow(log[..|log| - 1], e, reading) + (if (if reading then t.reader else t.writer) == e then t.batch else [])
  }

  /** What the delivered operations and the pending one of `e` have moved. */
  ghost function Through(p: Pairs, e: Ref): seq<Cell>
    requires e in p.ends && (p.ends[e].operation != NULL ==> p.ends[e].operation in p.bufs)
  {
    p.ends[e].hist + (if p.ends[e].operation == NULL then [] else p.bufs[p.ends[e].operation].moved)
  }

  /** A pending operation holds exactly the elements that were moved into it, or
      exactly those that were not yet moved out of it. Guest memory may be
      changed by the guest at any time, so only host cells are described. */
  predicate ContentOk(E: End, v: Buf, cells: seq<Cell>) {
    && |v.moved| <= v.progress && (E.failure == Ok ==> |v.moved| == v.progress)
    && (!E.ty.hasPayload ==> v.moved == UnitBatch(|v.moved|))
    && (E.ty.hasPayload && !v.guest ==> v.length <= |cells| && v.progress <= v.length)
    && (E.ty.hasPayload && !v.guest && E.readable ==>
          cells[..|v.moved|] == v.moved && forall i :: |v.moved| <= i < v.length ==> cells[i] == Empty)
    && (E.ty.hasPayload && !v.guest && !E.readable && E.failure == Ok ==>
          && |v.lent| == |cells| && v.moved == v.lent[..v.progress]
          && cells[v.progress..v.length] == v.lent[v.progress..v.length]
          && forall i :: 0 <= i < v.progress ==> cells[i] == Empty)
  }

  ghost predicate FlowInv(p: Pairs)
    requires Closed(p)
  {
    forall e :: e in p.ends ==> Through(p, e) == Flow(p.log, e, p.ends[e].readable)
  }

  ghost predicate ContentInv(p: Pairs)
    requires Closed(p)
  {
    forall e :: e in p.ends && p.ends[e].operation != NULL ==>
      ContentOk(p.ends[e], p.bufs[p.ends[e].operation], p.cells[p.bufs[p.ends[e].operation].values])
  }

  /** The operation of `E` with buffer `v` moves element values. */
  predicate Carries(E: End, v: Buf) {
    E.ty.hasPayload && v.length != 0
  }

  /** Lent host cells belong to one operation only. */
  ghost predicate HostUnique(p: Pairs)
    requires Closed(p)
  {
    forall e, f :: e in p.ends && f in p.ends && e != f &&
                   p.ends[e].operation != NULL && p.ends[f].operation != NULL ==>
      Apart(p.ends[e], p.bufs[p.ends[e].operation], p.ends[f], p.bufs[p.ends[f].operation])
  }

  predicate Apart(E: End, v: Buf, F: End, u: Buf) {
    Carries(E, v) && Carries(F, u) && !(v.guest && u.guest) ==> v.values != u.values
  }

  /** Every transfer was between a writing and a reading end. */
  ghost predicate LogOk(p: Pairs) {
    forall i :: 0 <= i < |p.log| ==>
      && p.log[i].writer in p.ends && p.ends[p.log[i].writer].initialized && !p.ends[p.log[i].writer].readable
      && p.log[i].reader in p.ends && p.ends[p.log[i].reader].initialized && p.ends[p.log[i].reader].readable
  }

  ghost predicate Conserved(p: Pairs) {
    Closed(p) && FlowInv(p) && ContentInv(p) && HostUnique(p) && LogOk(p)
  }

  // ---------------------------------------------------------------- framing

  /** `F` looks like `E` to the flow of elements. */
  predicate SameFlow(E: End, F: End) {
    && F.readable == E.readable && F.ty == E.ty && F.operation == E.operation && F.hist == E.hist
    && F.initialized == E.initialized && (E.failure != Ok ==> F.failure != Ok)
  }

  /** A step that only changes states, links and availability. */
  lemma {:induction false} FrameKeeps(p: Pairs, q: Pairs)
    requires Conserved(p) && Closed(q) && q.bufs == p.bufs && q.cells == p.cells && q.log == p.log
    requires q.ends.Keys == p.ends.Keys
    requires forall e :: e in p.ends ==> SameFlow(p.ends[e], q.ends[e])
    ensures Conserved(q)
  {
    hide Closed;
    assert FlowInv(q) by {
      hide ContentInv, HostUnique, LogOk, Flow;
    }
    assert HostUnique(q) by {
      hide ContentInv, FlowInv, LogOk;
    }
    assert LogOk(q) by {
      hide ContentInv, HostUnique, FlowInv;
    }
    assert ContentInv(q) by {
      hide FlowInv, HostUnique, LogOk;
    }
  }

  lemma {:induction false} ContentIrrelevant(E: End, v: Buf, c: seq<Cell>, c': seq<Cell>)
    requires ContentOk(E, v, c) && |c| == |c'| && (!Carries(E, v) || v.guest)
    ensures ContentOk(E, v, c')
  {
  }

  // ---------------------------------------------------------------- lending

  /** A validated buffer is empty for a reader and full for a writer. */
  lemma {:induction false} LendContent(E: End, v: Buf, cells: seq<Cell>, guestCheck: Status, b: Ref, count: nat)
    requires ValidateBuffer(E, v, cells, guestCheck) == Ok
    ensures ContentOk(LentEnd(E, b, count), LentBuf(v, cells), cells)
  {
  }

  /** The caller's duty on submit: host values are uniquely owned, and host
      cells are not guest memory. What the peer has waiting is checked instead. */
  ghost predicate Duty(p: Pairs, e: Ref, b: Ref)
    requires Closed(p) && e in p.ends && b in p.bufs
  {
    forall f :: f in p.ends && f != e && p.ends[f].operation != NULL &&
                !(f == p.ends[e].peer && p.ends[f].available == p.ends[f].operation && !p.bufs[b].guest
                  && !p.bufs[p.ends[f].operation].guest) ==>
      Apart(p.ends[e], p.bufs[b], p.ends[f], p.bufs[p.ends[f].operation])
  }

  ghost predicate CanLend(p: Pairs, e: Ref, b: Ref, guestCheck: Status) {
    && Conserved(p) && Unshared(p) && e in p.ends && b in p.bufs && p.ends[e].operation == NULL
    && (forall f :: f in p.ends ==> p.ends[f].operation != b)
    && ValidateBuffer(p.ends[e], p.bufs[b], p.cells[p.bufs[b].values], guestCheck) == Ok
    && (forall f :: f in p.ends && f != e && p.ends[f].operation != NULL ==>
          Apart(p.ends[e], p.bufs[b], p.ends[f], p.bufs[p.ends[f].operation]))
  }

  lemma {:induction false} LendClosed(p: Pairs, e: Ref, b: Ref, count: nat)
    requires Closed(p) && e in p.ends && b in p.bufs
    ensures Closed(Lend(p, e, b, count))
  {
  }

  lemma {:induction false} LendFlow(p: Pairs, e: Ref, b: Ref, guestCheck: Status, count: nat)
    requires CanLend(p, e, b, guestCheck) && Closed(Lend(p, e, b, count))
    ensures FlowInv(Lend(p, e, b, count)) && LogOk(Lend(p, e, b, count))
  {
    var q := Lend(p, e, b, count);
    hide ContentOk, Apart, Flow, ValidateBuffer, Closed, Through, LogOk;
    LendLog(p, e, b, guestCheck, count);
    forall x | x in q.ends
      ensures Through(q, x) == Flow(q.log, x, q.ends[x].readable)
    {
      assert Through(p, x) == Flow(p.log, x, p.ends[x].readable);
      LendThrough(p, e, b, guestCheck, count, x);
    }
  }

  lemma {:induction false} LendThrough(p: Pairs, e: Ref, b: Ref, guestCheck: Status, count: nat, x: Ref)
    requires CanLend(p, e, b, guestCheck) && Closed(Lend(p, e, b, count)) && x in p.ends
    ensures var q := Lend(p, e, b, count);
              Through(q, x) == Through(p, x) && q.log == p.log && q.ends[x].readable == p.ends[x].readable
  {
    hide ContentOk, Apart, ValidateBuffer, Closed, LogOk, HostUnique, FlowInv, ContentInv;
  }

  lemma {:induction false} LendLog(p: Pairs, e: Ref, b: Ref, guestCheck: Status, count: nat)
    requires CanLend(p, e, b, guestCheck)
    ensures LogOk(Lend(p, e, b, count)) && Lend(p, e, b, count).ends.Keys == p.ends.Keys
  {
    hide ContentOk, Apart, ValidateBuffer, Closed, HostUnique, FlowInv, ContentInv;
  }

  lemma {:induction false} LendContents(p: Pairs, e: Ref, b: Ref, guestCheck: Status, count: nat)
    requires CanLend(p, e, b, guestCheck) && Closed(Lend(p, e, b, count))
    ensures ContentInv(Lend(p, e, b, count))
  {
    LendContent(p.ends[e], p.bufs[b], p.cells[p.bufs[b].values], guestCheck, b, count);
    hide ContentOk, Apart, Flow, ValidateBuffer, Closed;
  }

  lemma {:induction false} LendUnique(p: Pairs, e: Ref, b: Ref, guestCheck: Status, count: nat)
    requires CanLend(p, e, b, guestCheck) && Closed(Lend(p, e, b, count))
    ensures HostUnique(Lend(p, e, b, count))
  {
    hide ContentOk, Flow, ValidateBuffer, Closed;
  }

  lemma {:induction false} LendKeeps(p: Pairs, e: Ref, b: Ref, guestCheck: Status, count: nat)
    requires CanLend(p, e, b, guestCheck)
    ensures Conserved(Lend(p, e, b, count))
  {
    LendClosed(p, e, b, count);
    hide Closed, CanLend;
    LendFlow(p, e, b, guestCheck, count);
    LendContents(p, e, b, guestCheck, count);
    LendUnique(p, e, b, guestCheck, count);
  }

  // ---------------------------------------------------------------- copying

  predicate Filled(v: Buf, more: seq<Cell>, v': Buf) {
    v' == v.(moved := v.moved + more)
  }

  /** What a committed copy makes of the writer. */
  lemma {:induction false} CopiedOut(src: Buf, dst: Buf, sc: seq<Cell>, dc: seq<Cell>, hasPayload: bool, count: nat,
      f: Faults)
    requires CanCopy(src, dst, sc, dc, hasPayload, count)
    requires BufferCopy(src, dst, sc, dc, hasPayload, count, f).status == Ok
    ensures var out := BufferCopy(src, dst, sc, dc, hasPayload, count, f);
            && out.src == src.(progress := src.progress + count) && |out.batch| == count && |out.sc| == |sc|
            && (!hasPayload ==> out.batch == UnitBatch(count))
            && (hasPayload ==> out.batch == sc[src.progress..src.progress + count])
            && (hasPayload && !src.guest ==> out.sc == Overwrite(sc, src.progress, Blank(count)))
  {
    hide Overwrite, Blank;
  }

  /** Blanking the next elements of a lent buffer moves the boundary. */
  lemma {:induction false} Boundary(lent: seq<Cell>, cells: seq<Cell>, progress: nat, length: nat, count: nat)
    requires progress + count <= length <= |cells| == |lent| && cells[progress..length] == lent[progress..length]
    requires forall i :: 0 <= i < progress ==> cells[i] == Empty
    ensures lent[..progress] + cells[progress..progress + count] == lent[..progress + count]
    ensures var gone := Overwrite(cells, progress, Blank(count));
            && |gone| == |cells| && gone[progress + count..length] == lent[progress + count..length]
            && forall i :: 0 <= i < progress + count ==> gone[i] == Empty
  {
    assert cells[progress..progress + count] == cells[progress..length][..count];
    assert lent[progress..progress + count] == lent[progress..length][..count];
    assert cells[progress + count..length] == cells[progress..length][count..];
    assert lent[progress + count..length] == lent[progress..length][count..];
  }

  /** A committed copy extends both operations by the same batch. */
  lemma {:induction false} CopiedWriter(R: End, W: End, src: Buf, dst: Buf, sc: seq<Cell>, dc: seq<Cell>, count: nat,
      f: Faults)
    requires CanCopy(src, dst, sc, dc, R.ty.hasPayload, count) && W.ty == R.ty && !W.readable
    requires ContentOk(W, src, sc) && W.failure == Ok
    requires BufferCopy(src, dst, sc, dc, R.ty.hasPayload, count, f).status == Ok
    ensures var out := BufferCopy(src, dst, sc, dc, R.ty.hasPayload, count, f);
            ContentOk(W, out.src.(moved := src.moved + out.batch), out.sc)
  {
    CopiedOut(src, dst, sc, dc, R.ty.hasPayload, count, f);
    hide BufferCopy, Overwrite, Blank;
    if R.ty.hasPayload && !src.guest {
      Boundary(src.lent, sc, src.progress, src.length, count);
    }
  }

  lemma {:induction false} CopiedReader(R: End, src: Buf, dst: Buf, sc: seq<Cell>, dc: seq<Cell>, count: nat, f: Faults)
    requires CanCopy(src, dst, sc, dc, R.ty.hasPayload, count) && R.readable
    requires ContentOk(R, dst, dc) && R.failure == Ok
    requires BufferCopy(src, dst, sc, dc, R.ty.hasPayload, count, f).status == Ok
    ensures var out := BufferCopy(src, dst, sc, dc, R.ty.hasPayload, count, f);
            ContentOk(R, out.dst.(moved := dst.moved + out.batch), out.dc)
  {
    var out := BufferCopy(src, dst, sc, dc, R.ty.hasPayload, count, f);
    if R.ty.hasPayload && !dst.guest {
      assert out.dc[..dst.progress + count] == dst.moved + out.batch;
    }
  }

  /** A failed copy takes nothing back from the reader and hides nothing. */
  lemma {:induction false} FailedReader(R: End, src: Buf, dst: Buf, sc: seq<Cell>, dc: seq<Cell>, count: nat, f: Faults)
    requires CanCopy(src, dst, sc, dc, R.ty.hasPayload, count) && R.readable && ContentOk(R, dst, dc)
    requires BufferCopy(src, dst, sc, dc, R.ty.hasPayload, count, f).status != Ok
    ensures var out := BufferCopy(src, dst, sc, dc, R.ty.hasPayload, count, f);
            ContentOk(Fail(R, out.status), out.dst, out.dc)
  {
  }

  lemma {:induction false} FailedWriter(R: End, W: End, src: Buf, dst: Buf, sc: seq<Cell>, dc: seq<Cell>, count: nat,
      f: Faults)
    requires CanCopy(src, dst, sc, dc, R.ty.hasPayload, count) && !W.readable && W.ty == R.ty && ContentOk(W, src, sc)
    requires BufferCopy(src, dst, sc, dc, R.ty.hasPayload, count, f).status != Ok
    ensures var out := BufferCopy(src, dst, sc, dc, R.ty.hasPayload, count, f);
            ContentOk(Fail(W, out.status), out.src, out.sc)
  {
  }

  // ---------------------------------------------------------------- transfers

  /** Two conserved ends about to copy. */
  ghost predicate CanFlow(p: Pairs, r: Ref, w: Ref, count: nat) {
    && Conserved(p) && Unshared(p) && CanTransfer(p, r, w, count)
    && p.ends[r].readable && !p.ends[w].readable && p.ends[r].ty == p.ends[w].ty
    && p.ends[r].failure == Ok && p.ends[w].failure == Ok && p.ends[r].initialized && p.ends[w].initialized
    && p.ends[r].state.phase.Copying? && p.ends[w].state.phase.Copying?
  }

  lemma {:induction false} FlowAppend(log: seq<Transfer>, t: Transfer, e: Ref, reading: bool)
    ensures Flow(log + [t], e, reading) ==
              Flow(log, e, reading) + (if (if reading then t.reader else t.writer) == e then t.batch else [])
  {
    assert (log + [t])[..|log|] == log;
  }

  lemma {:induction false} TransferClosed(p: Pairs, r: Ref, w: Ref, count: nat, f: Faults)
    requires Transferable(p, r, w, count)
    ensures Closed(TransferBuffers(p, r, w, count, f).0)
  {
    TransferShape(p, r, w, count, f);
    TransferEnds(p, r, w, count, f);
    hide TransferBuffers;
  }

  /** What a transfer means for the two buffers. */
  lemma {:induction false} TransferMovedBufs(p: Pairs, r: Ref, w: Ref, count: nat, f: Faults)
    requires CanTransfer(p, r, w, count)
    ensures var out := Copied(p, r, w, count, f);
            var q := TransferBuffers(p, r, w, count, f).0;
            var more := if out.status == Ok then out.batch else [];
            var rb, wb := p.ends[r].operation, p.ends[w].operation;
            && q.bufs.Keys == p.bufs.Keys && (forall b :: b in p.bufs && b != rb && b != wb ==> q.bufs[b] == p.bufs[b])
            && q.bufs[rb] == out.dst.(moved := out.dst.moved + more)
            && q.bufs[wb] == out.src.(moved := out.src.moved + more)
  {
    TransferMoved(p, r, w, count, f);
    hide TransferBuffers, Copied;
  }

  /** A committed transfer of `batch` from `w` to `r`, as the flow sees it. */
  ghost predicate Extended(p: Pairs, q: Pairs, r: Ref, w: Ref, batch: seq<Cell>) {
    && r in p.ends && w in p.ends && r != w
    && var rb, wb := p.ends[r].operation, p.ends[w].operation;
    && rb != NULL && wb != NULL && rb != wb && rb in p.bufs && wb in p.bufs
    && q.ends == p.ends && q.log == p.log + [Transfer(w, r, batch)] && q.bufs.Keys == p.bufs.Keys
    && (forall b :: b in p.bufs && b != rb && b != wb ==> q.bufs[b] == p.bufs[b])
    && q.bufs[rb].moved == p.bufs[rb].moved + batch && q.bufs[wb].moved == p.bufs[wb].moved + batch
  }

  lemma {:induction false} TransferExtends(p: Pairs, r: Ref, w: Ref, count: nat, f: Faults)
    requires CanTransfer(p, r, w, count) && Copied(p, r, w, count, f).status == Ok
    ensures Extended(p, TransferBuffers(p, r, w, count, f).0, r, w, Copied(p, r, w, count, f).batch)
  {
    TransferMovedBufs(p, r, w, count, f);
    var src, dst := p.bufs[p.ends[w].operation], p.bufs[p.ends[r].operation];
    CopyShape(src, dst, p.cells[src.values], p.cells[dst.values], p.ends[r].ty.hasPayload, count, f);
    hide BufferCopy;
  }

  lemma {:induction false} ExtendedThrough(p: Pairs, q: Pairs, r: Ref, w: Ref, batch: seq<Cell>, x: Ref)
    requires Closed(p) && Closed(q) && Unshared(p) && Extended(p, q, r, w, batch) && x in p.ends
    ensures Through(q, x) == Through(p, x) + (if x == r || x == w then batch else [])
  {
    assert p.ends[x].operation != NULL ==> p.ends[x].operation in p.bufs;
  }

  lemma {:induction false} ExtendedFlow(p: Pairs, q: Pairs, r: Ref, w: Ref, batch: seq<Cell>)
    requires Closed(p) && Closed(q) && Unshared(p) && FlowInv(p) && LogOk(p) && Extended(p, q, r, w, batch)
    requires p.ends[r].readable && !p.ends[w].readable && p.ends[r].initialized && p.ends[w].initialized
    ensures FlowInv(q) && LogOk(q)
  {
    hide Flow, Through, Unshared;
    forall x | x in q.ends
      ensures Through(q, x) == Flow(q.log, x, q.ends[x].readable)
    {
      FlowAppend(p.log, Transfer(w, r, batch), x, p.ends[x].readable);
      ExtendedThrough(p, q, r, w, batch, x);
      assert Through(p, x) == Flow(p.log, x, p.ends[x].readable);
    }
  }

  /** The cells other operations hold are not written by a transfer. */
  lemma {:induction false} TransferOtherCells(p: Pairs, r: Ref, w: Ref, count: nat, f: Faults, x: Ref)
    requires Closed(p) && HostUnique(p) && CanTransfer(p, r, w, count) && p.ends[r].ty == p.ends[w].ty
    requires x in p.ends && x != r && x != w && p.ends[x].operation != NULL
    requires var v := p.bufs[p.ends[x].operation]; Carries(p.ends[x], v) && !v.guest
    ensures var q := TransferBuffers(p, r, w, count, f).0; var a := p.bufs[p.ends[x].operation].values;
            a in q.cells && q.cells[a] == p.cells[a]
  {
    var src, dst := p.bufs[p.ends[w].operation], p.bufs[p.ends[r].operation];
    var v := p.bufs[p.ends[x].operation];
    TransferMoved(p, r, w, count, f);
    var out := Copied(p, r, w, count, f);
    assert (out.dst.values == dst.values && out.src.values == src.values && out.src.guest == src.guest) by {
      CopyShape(src, dst, p.cells[src.values], p.cells[dst.values], p.ends[r].ty.hasPayload, count, f);
      hide BufferCopy;
    }
    if p.ends[r].ty.hasPayload {
      assert Apart(p.ends[x], v, p.ends[r], dst) && Apart(p.ends[x], v, p.ends[w], src);
      hide TransferBuffers, Copied;
    } else {
      assert out.sc == p.cells[src.values] && out.dc == p.cells[dst.values];
      hide TransferBuffers, Copied;
    }
  }

  lemma {:induction false} TransferOtherContent(p: Pairs, r: Ref, w: Ref, count: nat, f: Faults, x: Ref)
    requires Closed(p) && Unshared(p) && HostUnique(p) && ContentInv(p) && CanTransfer(p, r, w, count)
    requires p.ends[r].ty == p.ends[w].ty
    requires Transferable(p, r, w, count)
    requires x in p.ends && x != r && x != w && p.ends[x].operation != NULL
    ensures var q := TransferBuffers(p, r, w, count, f).0; var b := p.ends[x].operation;
            b in q.bufs && q.bufs[b] == p.bufs[b] && q.bufs[b].values in q.cells
              && ContentOk(p.ends[x], q.bufs[b], q.cells[q.bufs[b].values])
  {
    TransferMovedBufs(p, r, w, count, f);
    TransferCells(p, r, w, count, f);
    var b := p.ends[x].operation;
    var v := p.bufs[b];
    var q := TransferBuffers(p, r, w, count, f).0;
    assert ContentOk(p.ends[x], v, p.cells[v.values]);
    hide TransferBuffers, Copied, ContentOk;
    if Carries(p.ends[x], v) && !v.guest {
      TransferOtherCells(p, r, w, count, f, x);
    } else {
      ContentIrrelevant(p.ends[x], v, p.cells[v.values], q.cells[v.values]);
    }
  }

  /** Host cells hold what the copy wrote. */
  lemma {:induction false} TransferOwnCells(p: Pairs, r: Ref, w: Ref, count: nat, f: Faults)
    requires Closed(p) && HostUnique(p) && CanTransfer(p, r, w, count) && p.ends[r].ty == p.ends[w].ty
    ensures var q := TransferBuffers(p, r, w, count, f).0; var out := Copied(p, r, w, count, f);
            var src, dst := p.bufs[p.ends[w].operation], p.bufs[p.ends[r].operation];
            && src.values in q.cells && dst.values in q.cells
            && |q.cells[src.values]| == |out.sc| && |q.cells[dst.values]| == |out.dc|
            && (!src.guest ==> q.cells[src.values] == out.sc)
            && (!dst.guest && p.ends[r].ty.hasPayload ==> q.cells[dst.values] == out.dc)
  {
    var src, dst := p.bufs[p.ends[w].operation], p.bufs[p.ends[r].operation];
    TransferMoved(p, r, w, count, f);
    var out := Copied(p, r, w, count, f);
    CopyShape(src, dst, p.cells[src.values], p.cells[dst.values], p.ends[r].ty.hasPayload, count, f);
    assert Apart(p.ends[r], dst, p.ends[w], src);
    hide TransferBuffers, BufferCopy;
  }

  lemma {:induction false} TransferReaderContent(p: Pairs, r: Ref, w: Ref, count: nat, f: Faults)
    requires CanFlow(p, r, w, count)
    ensures var q := TransferBuffers(p, r, w, count, f).0; var out := Copied(p, r, w, count, f);
              var b := p.ends[r].operation;
            var R := if out.status == Ok then p.ends[r] else Fail(p.ends[r], out.status);
            && b in q.bufs && q.bufs[b].values in q.cells
            && ContentOk(R, q.bufs[b], q.cells[q.bufs[b].values])
  {
    TransferMovedBufs(p, r, w, count, f);
    TransferOwnCells(p, r, w, count, f);
    var src, dst := p.bufs[p.ends[w].operation], p.bufs[p.ends[r].operation];
    var sc, dc := p.cells[src.values], p.cells[dst.values];
    CopyShape(src, dst, sc, dc, p.ends[r].ty.hasPayload, count, f);
    var out := Copied(p, r, w, count, f);
    var q := TransferBuffers(p, r, w, count, f).0;
    var R := if out.status == Ok then p.ends[r] else Fail(p.ends[r], out.status);
    assert ContentOk(p.ends[r], dst, dc);
    hide BufferCopy, TransferBuffers, FlowInv, HostUnique, LogOk, Unshared, ContentInv, Closed;
    if out.status == Ok {
      CopiedReader(p.ends[r], src, dst, sc, dc, count, f);
    } else {
      FailedReader(p.ends[r], src, dst, sc, dc, count, f);
      assert out.dst.(moved := out.dst.moved + []) == out.dst;
    }
    var v := q.bufs[p.ends[r].operation];
    assert ContentOk(R, v, out.dc);
    if v.guest || !R.ty.hasPayload {
      ContentIrrelevant(R, v, out.dc, q.cells[v.values]);
    }
  }

  lemma {:induction false} TransferWriterContent(p: Pairs, r: Ref, w: Ref, count: nat, f: Faults)
    requires CanFlow(p, r, w, count)
    ensures var q := TransferBuffers(p, r, w, count, f).0; var out := Copied(p, r, w, count, f);
              var b := p.ends[w].operation;
            var W := if out.status == Ok then p.ends[w] else Fail(p.ends[w], out.status);
            && b in q.bufs && q.bufs[b].values in q.cells
            && ContentOk(W, q.bufs[b], q.cells[q.bufs[b].values])
  {
    TransferMovedBufs(p, r, w, count, f);
    TransferOwnCells(p, r, w, count, f);
    var src, dst := p.bufs[p.ends[w].operation], p.bufs[p.ends[r].operation];
    var sc, dc := p.cells[src.values], p.cells[dst.values];
    CopyShape(src, dst, sc, dc, p.ends[r].ty.hasPayload, count, f);
    var out := Copied(p, r, w, count, f);
    var q := TransferBuffers(p, r, w, count, f).0;
    var W := if out.status == Ok then p.ends[w] else Fail(p.ends[w], out.status);
    assert ContentOk(p.ends[w], src, sc);
    hide BufferCopy, TransferBuffers, FlowInv, HostUnique, LogOk, Unshared, ContentInv, Closed;
    if out.status == Ok {
      CopiedWriter(p.ends[r], p.ends[w], src, dst, sc, dc, count, f);
    } else {
      FailedWriter(p.ends[r], p.ends[w], src, dst, sc, dc, count, f);
      assert out.src.(moved := out.src.moved + []) == out.src;
    }
    var v := q.bufs[p.ends[w].operation];
    assert ContentOk(W, v, out.sc);
    if v.guest {
      ContentIrrelevant(W, v, out.sc, q.cells[v.values]);
    }
  }

  lemma {:induction false} TransferContents(p: Pairs, r: Ref, w: Ref, count: nat, f: Faults)
    requires CanFlow(p, r, w, count) && Closed(TransferBuffers(p, r, w, count, f).0)
    ensures ContentInv(TransferBuffers(p, r, w, count, f).0)
  {
    var q := TransferBuffers(p, r, w, count, f).0;
    assert Transferable(p, r, w, count);
    TransferEnds(p, r, w, count, f);
    TransferReaderContent(p, r, w, count, f);
    TransferWriterContent(p, r, w, count, f);
    hide TransferBuffers, ContentOk, Copied, Transferable;
    forall x | x in q.ends && q.ends[x].operation != NULL
      ensures ContentOk(q.ends[x], q.bufs[q.ends[x].operation], q.cells[q.bufs[q.ends[x].operation].values])
    {
      if x != r && x != w {
        TransferOtherContent(p, r, w, count, f, x);
      }
    }
  }

  /** The operations of `q` are those of `p`, on the same kind of buffers. */
  ghost predicate SameCarriers(p: Pairs, q: Pairs) {
    && q.ends.Keys == p.ends.Keys && q.bufs.Keys == p.bufs.Keys
    && (forall x :: x in p.ends ==> q.ends[x].operation == p.ends[x].operation && q.ends[x].ty == p.ends[x].ty)
    && (forall b :: b in p.bufs ==>
         q.bufs[b].values == p.bufs[b].values && q.bufs[b].length == p.bufs[b].length
         && q.bufs[b].guest == p.bufs[b].guest)
  }

  lemma {:induction false} UniqueFrame(p: Pairs, q: Pairs)
    requires Closed(p) && Closed(q) && HostUnique(p) && SameCarriers(p, q)
    ensures HostUnique(q)
  {
    forall x, y | x in q.ends && y in q.ends && x != y && q.ends[x].operation != NULL && q.ends[y].operation != NULL
      ensures Apart(q.ends[x], q.bufs[q.ends[x].operation], q.ends[y], q.bufs[q.ends[y].operation])
    {
      assert Apart(p.ends[x], p.bufs[p.ends[x].operation], p.ends[y], p.bufs[p.ends[y].operation]);
    }
  }

  lemma {:induction false} TransferCarriers(p: Pairs, r: Ref, w: Ref, count: nat, f: Faults)
    requires Transferable(p, r, w, count)
    ensures SameCarriers(p, TransferBuffers(p, r, w, count, f).0)
  {
    TransferEnds(p, r, w, count, f);
    TransferBufs(p, r, w, count, f);
    hide TransferBuffers, Copied, Transferable, CanTransfer;
  }

  /** Every end has the same history, the same operation, and the same moved elements. */
  ghost predicate SameThrough(p: Pairs, q: Pairs) {
    && q.ends.Keys == p.ends.Keys && q.bufs.Keys == p.bufs.Keys && q.log == p.log
    && (forall x :: x in p.ends ==>
          && q.ends[x].operation == p.ends[x].operation && q.ends[x].hist == p.ends[x].hist
          && q.ends[x].readable == p.ends[x].readable && q.ends[x].initialized == p.ends[x].initialized)
    && (forall b :: b in p.bufs ==> q.bufs[b].moved == p.bufs[b].moved)
  }

  lemma {:induction false} FlowFrame(p: Pairs, q: Pairs)
    requires Closed(p) && Closed(q) && FlowInv(p) && LogOk(p) && SameThrough(p, q)
    ensures FlowInv(q) && LogOk(q)
  {
    hide Flow;
    forall x | x in q.ends
      ensures Through(q, x) == Flow(q.log, x, q.ends[x].readable)
    {
      assert Through(p, x) == Flow(p.log, x, p.ends[x].readable);
    }
  }

  lemma {:induction false} FailedCopyMoves(p: Pairs, r: Ref, w: Ref, count: nat, f: Faults)
    requires Transferable(p, r, w, count) && Copied(p, r, w, count, f).status != Ok
    ensures var out := Copied(p, r, w, count, f);
            && TransferBuffers(p, r, w, count, f).0.log == p.log
            && out.src.moved == p.bufs[p.ends[w].operation].moved && out.dst.moved == p.bufs[p.ends[r].operation].moved
  {
    var src, dst := p.bufs[p.ends[w].operation], p.bufs[p.ends[r].operation];
    CopyShape(src, dst, p.cells[src.values], p.cells[dst.values], p.ends[r].ty.hasPayload, count, f);
    hide BufferCopy, Closed;
  }

  lemma {:induction false} TransferFailedBufs(p: Pairs, r: Ref, w: Ref, count: nat, f: Faults)
    requires Transferable(p, r, w, count) && Copied(p, r, w, count, f).status != Ok
    ensures var q := TransferBuffers(p, r, w, count, f).0;
            && q.bufs.Keys == p.bufs.Keys && q.log == p.log
            && (forall b :: b in p.bufs ==> q.bufs[b].moved == p.bufs[b].moved)
  {
    FailedCopyMoves(p, r, w, count, f);
    TransferMovedBufs(p, r, w, count, f);
    hide TransferBuffers, Copied, Closed, CanTransfer, Transferable;
  }

  lemma {:induction false} TransferFailedEnds(p: Pairs, r: Ref, w: Ref, count: nat, f: Faults)
    requires Transferable(p, r, w, count)
    ensures var q := TransferBuffers(p, r, w, count, f).0;
            && q.ends.Keys == p.ends.Keys
            && (forall x :: x in p.ends ==>
                  && q.ends[x].operation == p.ends[x].operation && q.ends[x].hist == p.ends[x].hist
                  && q.ends[x].readable == p.ends[x].readable && q.ends[x].initialized == p.ends[x].initialized)
  {
    TransferEnds(p, r, w, count, f);
    hide TransferBuffers, Copied, Closed, CanTransfer, Transferable;
  }

  /** Nothing flows in a failed transfer. */
  lemma {:induction false} TransferFailedThrough(p: Pairs, r: Ref, w: Ref, count: nat, f: Faults)
    requires Transferable(p, r, w, count) && Copied(p, r, w, count, f).status != Ok
    ensures SameThrough(p, TransferBuffers(p, r, w, count, f).0)
  {
    TransferFailedBufs(p, r, w, count, f);
    TransferFailedEnds(p, r, w, count, f);
    hide TransferBuffers, Copied, Closed, CanTransfer, Transferable;
  }

  lemma {:induction false} TransferKeeps(p: Pairs, r: Ref, w: Ref, count: nat, f: Faults)
    requires CanFlow(p, r, w, count)
    ensures Conserved(TransferBuffers(p, r, w, count, f).0)
  {
    assert Transferable(p, r, w, count);
    TransferClosed(p, r, w, count, f);
    hide Closed, CanTransfer, TransferBuffers, FlowInv, ContentInv, HostUnique, LogOk, Unshared, Extended, Transferable;
    hide SameCarriers, SameThrough;
    TransferContents(p, r, w, count, f);
    TransferCarriers(p, r, w, count, f);
    UniqueFrame(p, TransferBuffers(p, r, w, count, f).0);
    if Copied(p, r, w, count, f).status == Ok {
      TransferExtends(p, r, w, count, f);
      ExtendedFlow(p, TransferBuffers(p, r, w, count, f).0, r, w, Copied(p, r, w, count, f).batch);
    } else {
      TransferFailedThrough(p, r, w, count, f);
      FlowFrame(p, TransferBuffers(p, r, w, count, f).0);
    }
  }

  // ---------------------------------------------------------------- delivery

  lemma {:induction false} ReleaseThrough(p: Pairs, e: Ref, s: EndpointState, x: Ref)
    requires Closed(p) && Unshared(p) && e in p.ends && x in p.ends
    ensures var q := Release(p, e, s);
            && x in q.ends && (q.ends[x].operation != NULL ==> q.ends[x].operation in q.bufs)
            && Through(q, x) == Through(p, x) && q.ends[x].readable == p.ends[x].readable
            && q.ends[x].initialized == p.ends[x].initialized
  {
    assert x != e && p.ends[x].operation != NULL ==> p.ends[x].operation != p.ends[e].operation;
    hide Unshared;
  }

  lemma {:induction false} ReleaseLog(p: Pairs, e: Ref, s: EndpointState)
    requires Closed(p) && LogOk(p) && e in p.ends
    ensures LogOk(Release(p, e, s)) && Release(p, e, s).log == p.log && Release(p, e, s).ends.Keys == p.ends.Keys
  {
    hide Closed;
  }

  lemma {:induction false} ReleaseFlow(p: Pairs, e: Ref, s: EndpointState)
    requires Conserved(p) && Unshared(p) && e in p.ends && Closed(Release(p, e, s))
    ensures FlowInv(Release(p, e, s)) && LogOk(Release(p, e, s))
  {
    var q := Release(p, e, s);
    ReleaseLog(p, e, s);
    hide ContentInv, HostUnique, LogOk, Flow, Release, Through, Closed, Unshared;
    forall x | x in q.ends
      ensures x in q.ends && (q.ends[x].operation != NULL ==> q.ends[x].operation in q.bufs)
      ensures Through(q, x) == Flow(q.log, x, q.ends[x].readable)
    {
      ReleaseThrough(p, e, s, x);
    }
  }

  lemma {:induction false} ReleaseContents(p: Pairs, e: Ref, s: EndpointState)
    requires Conserved(p) && Unshared(p) && e in p.ends && Closed(Release(p, e, s))
    ensures ContentInv(Release(p, e, s)) && HostUnique(Release(p, e, s))
  {
    hide FlowInv, LogOk, Flow, ContentOk, Apart;
  }

  lemma {:induction false} ReleaseConserves(p: Pairs, e: Ref, s: EndpointState)
    requires Conserved(p) && Unshared(p) && e in p.ends
    ensures Conserved(Release(p, e, s))
  {
    assert Closed(Release(p, e, s)) by {
      hide FlowInv, ContentInv, HostUnique, LogOk, Unshared;
    }
    hide Release, FlowInv, ContentInv, HostUnique, LogOk, Unshared, Closed;
    ReleaseFlow(p, e, s);
    ReleaseContents(p, e, s);
  }

  // ---------------------------------------------------------------- operations

  /** The checks of `submit` and the caller's duty make lending safe. */
  lemma {:induction false} SubmitCanLend(p: Pairs, e: Ref, b: Ref, guestCheck: Status)
    requires PairInv(p) && Conserved(p) && e in p.ends && b in p.bufs && Duty(p, e, b)
    requires p.ends[e].operation == NULL
    requires ValidateBuffer(p.ends[e], p.bufs[b], p.cells[p.bufs[b].values], guestCheck) == Ok
    requires var E := p.ends[e];
             E.peer != NULL && p.ends[E.peer].available != NULL && E.ty.hasPayload ==>
               !Overlaps(p.bufs[b], p.bufs[p.ends[E.peer].available])
    ensures CanLend(p, e, b, guestCheck)
  {
    var E := p.ends[e];
    forall f | f in p.ends
      ensures p.ends[f].operation != b
    {
      NotOperation(p, b, f);
    }
    if E.peer != NULL {
      EndFacts(p, E.peer);
      hide EndOk, OperationOk, LinkOk, ContentOk, Flow, ValidateBuffer, EndsOk, LinksOk, OperationsOk, LeasesHeld;
      hide HostUnique, FlowInv, ContentInv;
      assert p.ends[E.peer].operation != NULL ==> Apart(E, p.bufs[b], p.ends[E.peer], p.bufs[p.ends[E.peer].operation]);
    }
    hide EndOk, OperationOk, LinkOk, ContentOk, Flow, ValidateBuffer, EndsOk, LinksOk, OperationsOk, LeasesHeld;
    hide HostUnique, FlowInv, ContentInv, Apart;
  }

  lemma {:induction false} LendUnshared(p: Pairs, e: Ref, b: Ref, count: nat)
    requires Closed(p) && Unshared(p) && e in p.ends && b in p.bufs
    requires (forall f :: f in p.ends ==> p.ends[f].operation != b)
    ensures Unshared(Lend(p, e, b, count))
  {
  }

  lemma {:induction false} LendCanFlow(p: Pairs, e: Ref, b: Ref, guestCheck: Status, count: nat)
    requires PairInv(p) && CanLend(p, e, b, guestCheck) && p.ends[e].failure == Ok && p.ends[e].peer != NULL
    requires Transferable(Lend(p, e, b, count), ReaderOf(p, e), WriterOf(p, e), count)
    ensures CanFlow(Lend(p, e, b, count), ReaderOf(p, e), WriterOf(p, e), count)
  {
    LendKeeps(p, e, b, guestCheck, count);
    LendUnshared(p, e, b, count);
    EndFacts(p, e);
    hide EndOk, OperationOk, EndsOk, LinksOk, OperationsOk, LeasesHeld, Conserved, Unshared, Closed, CanTransfer;
  }

  /** Changing the states, links or availability of two ends. */
  lemma {:induction false} FrameTwo(c: Pairs, q: Pairs, e: Ref, E: End, f: Ref, F: End)
    requires Conserved(c) && Closed(q) && e in c.ends && f in c.ends
    requires q.ends == c.ends[e := E][f := F] && q.bufs == c.bufs && q.cells == c.cells && q.log == c.log
    requires SameFlow(c.ends[e], E) && SameFlow(c.ends[f], F)
    ensures Conserved(q)
  {
    hide Conserved, Closed;
    FrameKeeps(c, q);
  }

  /** The snapshot between the copy of a submission and its last updates. */
  ghost function AdmitCopied(p: Pairs, e: Ref, b: Ref, plan: Plan, f: Faults): (Pairs, Status)
    requires CanAdmit(p, e, b, plan)
  {
    var lent := Lend(p, e, b, plan.count);
    if plan.count == 0 then (lent, Ok) else TransferBuffers(lent, ReaderOf(p, e), WriterOf(p, e), plan.count, f)
  }

  lemma {:induction false} AdmitForm(p: Pairs, e: Ref, b: Ref, plan: Plan, f: Faults)
    requires CanAdmit(p, e, b, plan) && e in p.ends && p.ends[e].peer in p.ends && p.ends[e].peer != NULL
    ensures var (c, status) := AdmitCopied(p, e, b, plan, f);
            Admit(p, e, b, plan, f) ==
              if status != Ok then c
              else c.(ends := c.ends[e := AdmittedEnd(p.ends[e], b, plan)]
                                    [p.ends[e].peer := AdmittedPeer(p.ends[p.ends[e].peer], plan)])
  {
    hide TransferBuffers, CanTransfer, AdmittedEnd, AdmittedPeer, Lend;
  }

  lemma {:induction false} AdmitCopiedLent(p: Pairs, e: Ref, b: Ref, plan: Plan, f: Faults)
    requires CanAdmit(p, e, b, plan)
    requires plan.count != 0 ==> Transferable(Lend(p, e, b, plan.count), ReaderOf(p, e), WriterOf(p, e), plan.count)
    ensures var (c, status) := AdmitCopied(p, e, b, plan, f); status == Ok ==> c.ends == Lend(p, e, b, plan.count).ends
  {
    if plan.count != 0 {
      TransferEnds(Lend(p, e, b, plan.count), ReaderOf(p, e), WriterOf(p, e), plan.count, f);
    }
    hide TransferBuffers, CanTransfer, Transferable, Lend, TwoEnds;
  }

  /** The copied snapshot still shows the two ends as lent. */
  lemma {:induction false} AdmitCopiedEnds(p: Pairs, e: Ref, b: Ref, plan: Plan, f: Faults)
    requires CanAdmit(p, e, b, plan) && p.ends[e].peer in p.ends && p.ends[e].peer != NULL && p.ends[e].peer != e
    requires plan.count != 0 ==> Transferable(Lend(p, e, b, plan.count), ReaderOf(p, e), WriterOf(p, e), plan.count)
    ensures var (c, status) := AdmitCopied(p, e, b, plan, f); var g := p.ends[e].peer;
            status == Ok ==> e in c.ends && g in c.ends &&
                             SameFlow(c.ends[e], AdmittedEnd(p.ends[e], b, plan))
                               && SameFlow(c.ends[g], AdmittedPeer(p.ends[g], plan))
  {
    AdmitCopiedLent(p, e, b, plan, f);
    hide AdmitCopied, CanAdmit, Transferable;
  }

  lemma {:induction false} AdmitCopiedConserves(p: Pairs, e: Ref, b: Ref, plan: Plan, guestCheck: Status, f: Faults)
    requires PairInv(p) && CanLend(p, e, b, guestCheck) && p.ends[e].failure == Ok && p.ends[e].peer != NULL
    requires CanAdmit(p, e, b, plan)
    requires plan.count != 0 ==> Transferable(Lend(p, e, b, plan.count), ReaderOf(p, e), WriterOf(p, e), plan.count)
    ensures Conserved(AdmitCopied(p, e, b, plan, f).0)
  {
    hide Transferable, PairInv, CanLend, Conserved, TransferBuffers, CanTransfer, Lend;
    if plan.count == 0 {
      LendKeeps(p, e, b, guestCheck, 0);
    } else {
      LendCanFlow(p, e, b, guestCheck, plan.count);
      TransferKeeps(Lend(p, e, b, plan.count), ReaderOf(p, e), WriterOf(p, e), plan.count, f);
    }
  }

  lemma {:induction false} AdmitConserves(p: Pairs, e: Ref, b: Ref, plan: Plan, guestCheck: Status, f: Faults)
    requires PairInv(p) && CanLend(p, e, b, guestCheck) && p.ends[e].failure == Ok && p.ends[e].peer != NULL
    requires CanAdmit(p, e, b, plan) && Closed(Admit(p, e, b, plan, f))
    requires plan.count != 0 ==> Transferable(Lend(p, e, b, plan.count), ReaderOf(p, e), WriterOf(p, e), plan.count)
    ensures Conserved(Admit(p, e, b, plan, f))
  {
    EndFacts(p, e);
    AdmitForm(p, e, b, plan, f);
    AdmitCopiedEnds(p, e, b, plan, f);
    AdmitCopiedConserves(p, e, b, plan, guestCheck, f);
    hide Transferable, PairInv, CanLend, Conserved, TransferBuffers, CanTransfer, Lend, Admit, AdmitCopied, SameFlow;
    hide AdmittedEnd, AdmittedPeer, Closed, CanAdmit, EndOk, OperationOk, LinkOk;
    var (c, status) := AdmitCopied(p, e, b, plan, f);
    var q := Admit(p, e, b, plan, f);
    if status == Ok {
      FrameTwo(c, q, e, AdmittedEnd(p.ends[e], b, plan), p.ends[e].peer, AdmittedPeer(p.ends[p.ends[e].peer], plan));
    }
  }

  lemma {:induction false} AdmitUnlinkedConserves(p: Pairs, e: Ref, b: Ref, plan: Plan, guestCheck: Status, f: Faults)
    requires CanLend(p, e, b, guestCheck) && p.ends[e].peer == NULL && plan.count == 0
    requires CanAdmit(p, e, b, plan) && Closed(Admit(p, e, b, plan, f))
    ensures Conserved(Admit(p, e, b, plan, f))
  {
    hide CanLend, Conserved, CanTransfer, Closed;
    LendKeeps(p, e, b, guestCheck, 0);
    FrameTwo(Lend(p, e, b, 0), Admit(p, e, b, plan, f), e, AdmittedEnd(p.ends[e], b, plan), e,
      AdmittedEnd(p.ends[e], b, plan));
  }

  lemma {:induction false} JoinFlow(p: Pairs, s: Ref, d: Ref, r: Ref, w: Ref)
    requires FourEnds(p, s, d, r, w)
    ensures var j := Join(p, s, d, r, w); j.ends.Keys == p.ends.Keys && forall x :: x in p.ends ==>
              SameFlow(p.ends[x], j.ends[x])
  {
  }

  lemma {:induction false} JoinClosed(p: Pairs, s: Ref, d: Ref, r: Ref, w: Ref)
    requires Closed(p) && FourEnds(p, s, d, r, w)
    ensures Closed(Join(p, s, d, r, w))
  {
  }

  lemma {:induction false} JoinUnshared(p: Pairs, s: Ref, d: Ref, r: Ref, w: Ref)
    requires Unshared(p) && FourEnds(p, s, d, r, w)
    ensures Unshared(Join(p, s, d, r, w))
  {
    JoinFlow(p, s, d, r, w);
    hide Join;
  }

  lemma {:induction false} JoinConserves(p: Pairs, s: Ref, d: Ref, r: Ref, w: Ref)
    requires Conserved(p) && FourEnds(p, s, d, r, w)
    ensures Conserved(Join(p, s, d, r, w))
  {
    var j := Join(p, s, d, r, w);
    assert j.bufs == p.bufs && j.cells == p.cells && j.log == p.log;
    JoinFlow(p, s, d, r, w);
    JoinClosed(p, s, d, r, w);
    hide *;
    FrameKeeps(p, j);
  }

  lemma {:induction false} JoinCanFlow(p: Pairs, s: Ref, d: Ref, r: Ref, w: Ref, count: nat)
    requires Conserved(p) && Unshared(p) && FourEnds(p, s, d, r, w) && Joinable(p.ends[r], p.ends[w])
    requires Transferable(Join(p, s, d, r, w), r, w, count)
    ensures CanFlow(Join(p, s, d, r, w), r, w, count)
  {
    JoinConserves(p, s, d, r, w);
    JoinUnshared(p, s, d, r, w);
    hide Conserved, Unshared, CanTransfer, EndOk, Closed;
  }

  /** The snapshot between the copy of a forward and its last updates. */
  ghost function SpliceCopied(p: Pairs, s: Ref, d: Ref, plan: Splice, f: Faults): (Pairs, Status)
    requires CanSplice(p, s, d, plan)
  {
    var j := Join(p, s, d, p.ends[d].peer, p.ends[s].peer);
    if plan.count == 0 then (j, Ok) else TransferBuffers(j, p.ends[d].peer, p.ends[s].peer, plan.count, f)
  }

  lemma {:induction false} SpliceForm(p: Pairs, s: Ref, d: Ref, plan: Splice, f: Faults)
    requires CanSplice(p, s, d, plan)
    ensures var (c, status) := SpliceCopied(p, s, d, plan, f); var r, w := p.ends[d].peer, p.ends[s].peer;
            SplicePairs(p, s, d, plan, f) ==
              if status != Ok then (c, status)
              else (c.(ends := c.ends[r := SplicedEnd(p.ends[r], w, plan.read, plan.readDone)]
                                     [w := SplicedEnd(p.ends[w], r, plan.write, plan.writeDone)]), Ok)
  {
    hide TransferBuffers, CanTransfer, SplicedEnd, Join;
  }

  lemma {:induction false} SpliceCopiedJoined(p: Pairs, s: Ref, d: Ref, plan: Splice, f: Faults)
    requires CanSplice(p, s, d, plan)
    requires plan.count != 0 ==>
               Transferable(Join(p, s, d, p.ends[d].peer, p.ends[s].peer), p.ends[d].peer, p.ends[s].peer, plan.count)
    ensures var (c, status) := SpliceCopied(p, s, d, plan, f);
            status == Ok ==> c.ends == Join(p, s, d, p.ends[d].peer, p.ends[s].peer).ends
  {
    if plan.count != 0 {
      TransferEnds(Join(p, s, d, p.ends[d].peer, p.ends[s].peer), p.ends[d].peer, p.ends[s].peer, plan.count, f);
    }
    hide TransferBuffers, CanTransfer, Transferable, Join, TwoEnds;
  }

  lemma {:induction false} SpliceCopiedEnds(p: Pairs, s: Ref, d: Ref, r: Ref, w: Ref, plan: Splice, f: Faults)
    requires CanSplice(p, s, d, plan) && FourEnds(p, s, d, r, w)
    requires plan.count != 0 ==> Transferable(Join(p, s, d, r, w), r, w, plan.count)
    ensures var (c, status) := SpliceCopied(p, s, d, plan, f);
            status == Ok ==> r in c.ends && w in c.ends &&
                             SameFlow(c.ends[r], SplicedEnd(p.ends[r], w, plan.read, plan.readDone)) &&
                             SameFlow(c.ends[w], SplicedEnd(p.ends[w], r, plan.write, plan.writeDone))
  {
    SpliceCopiedJoined(p, s, d, plan, f);
    hide SpliceCopied, CanSplice, Transferable;
  }

  lemma {:induction false} SpliceCopiedConserves(p: Pairs, s: Ref, d: Ref, r: Ref, w: Ref, plan: Splice, f: Faults)
    requires Conserved(p) && Unshared(p) && CanSplice(p, s, d, plan) && FourEnds(p, s, d, r, w)
    requires Joinable(p.ends[r], p.ends[w])
    requires plan.count != 0 ==> Transferable(Join(p, s, d, r, w), r, w, plan.count)
    ensures Conserved(SpliceCopied(p, s, d, plan, f).0)
  {
    JoinConserves(p, s, d, r, w);
    hide Transferable, Conserved, Unshared, TransferBuffers, CanTransfer, Join, Joinable;
    if plan.count != 0 {
      JoinCanFlow(p, s, d, r, w, plan.count);
      TransferKeeps(Join(p, s, d, r, w), r, w, plan.count, f);
    }
  }

  lemma {:induction false} SpliceConserves(p: Pairs, s: Ref, d: Ref, r: Ref, w: Ref, plan: Splice, f: Faults)
    requires Conserved(p) && Unshared(p) && CanSplice(p, s, d, plan) && FourEnds(p, s, d, r, w)
    requires Joinable(p.ends[r], p.ends[w])
    requires plan.count != 0 ==> Transferable(Join(p, s, d, r, w), r, w, plan.count)
    requires Closed(SplicePairs(p, s, d, plan, f).0)
    ensures Conserved(SplicePairs(p, s, d, plan, f).0)
  {
    SpliceForm(p, s, d, plan, f);
    SpliceCopiedEnds(p, s, d, r, w, plan, f);
    SpliceCopiedConserves(p, s, d, r, w, plan, f);
    hide Transferable, Conserved, Unshared, CanTransfer, Join, Joinable, SplicePairs, SpliceCopied, SameFlow;
    hide SplicedEnd, Closed, CanSplice;
    var (c, status) := SpliceCopied(p, s, d, plan, f);
    var q := SplicePairs(p, s, d, plan, f).0;
    if status == Ok {
      FrameTwo(c, q, r, SplicedEnd(p.ends[r], w, plan.read, plan.readDone), w,
        SplicedEnd(p.ends[w], r, plan.write, plan.writeDone));
    }
  }

  lemma {:induction false} CancelConserves(p: Pairs, e: Ref)
    requires Conserved(p) && e in p.ends && CancelRequested(p.ends[e].state, false).Some?
    requires Closed(p.(ends := p.ends[e := CancelledEnd(p.ends[e])]))
    ensures Conserved(p.(ends := p.ends[e := CancelledEnd(p.ends[e])]))
  {
    hide Conserved, Closed;
    FrameTwo(p, p.(ends := p.ends[e := CancelledEnd(p.ends[e])]), e, CancelledEnd(p.ends[e]), e,
      CancelledEnd(p.ends[e]));
  }

  lemma {:induction false} CloseConserves(p: Pairs, e: Ref)
    requires Conserved(p) && e in p.ends && Closed(ClosePairs(p, e))
    requires p.ends[e].peer != e
    ensures Conserved(ClosePairs(p, e))
  {
    var f := p.ends[e].peer;
    if f == NULL || DroppedByPeer(p.ends[f].state).None? {
      hide Conserved, Closed, DroppedByPeer;
      if f == NULL {
        FrameTwo(p, ClosePairs(p, e), e, ClosedEnd(p.ends[e]), e, ClosedEnd(p.ends[e]));
      }
    } else {
      assert f in p.ends;
      hide Conserved, Closed, DroppedByPeer;
      FrameTwo(p, ClosePairs(p, e), e, ClosedEnd(p.ends[e]), f, DroppedEnd(p.ends[f]));
    }
  }
}
