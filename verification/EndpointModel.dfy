/**
  Value-level meaning of the endpoint operations (src/component_endpoint.c,
  src/component_buffer.c). A `World` is a snapshot of all endpoint objects;
  each operation is a function from one snapshot to the next. The imperative
  counterparts are proved to compute exactly these functions.
 */
module EndpointModel {
  import opened Common
  import opened AsyncState
  
  // ---------------------------------------------------------------- objects

  /** An address; `NULL` is no object. Endpoints, buffers, value arrays, handle
      tables, owner records and codecs live in separate address spaces. */
  type Ref = nat

  const NULL: Ref := 0

  /** One component value; its representation in guest memory is the concern of
      the canonical ABI modules. */
  type Element = nat

  /** A value cell. A host cell that was moved out is zeroed; a guest location
      that holds no valid encoding also reads as `Empty`. */
  datatype Cell = Empty | Full(v: Element)

  /** The type of a pair: future or stream, and its element type. `numeric`
      covers the integer and float types. */
  datatype EndType = EndType(future: bool, element: nat, hasPayload: bool, numeric: bool)

  datatype Buf = Buf(values: Ref, capacity: nat, length: nat, guest: bool, progress: nat, leased: bool,
      lent: seq<Cell>, moved: seq<Cell>)

  datatype End = End(
    readable: bool, ty: EndType, state: EndpointState, peer: Ref,
    operation: Ref, available: Ref, failure: Status,
    initialized: bool, closed: bool, hist: seq<Cell>)

  datatype Own = Own(table: Ref, handle: nat, setHandle: nat, syncWaiter: bool, valueOwner: Ref,
                     lowerScope: Ref, lowerHandle: nat)

  datatype TableV = TableV(entries: map<nat, Ref>, next: nat, max: nat)

  datatype OwnerV = OwnerV(endpoint: Ref, adopted: bool, admitted: bool)

  datatype CodecV = CodecV(table: Ref, chain: seq<Ref>)

  /** One committed rendezvous. */
  datatype Transfer = Transfer(writer: Ref, reader: Ref, batch: seq<Cell>)

  /** The pair an end was created in: its reading end, the other end, and whether
      the pair keeps its creation instance alive. */
  datatype Home = Home(pair: Ref, other: Ref, tracked: bool)

  /** `released` are the pairs that let their instance go; `stale` says that a
      pair was notified after that. */
  datatype Homes = Homes(homes: map<Ref, Home>, released: seq<Ref>, stale: bool)

  /** `log` records every committed rendezvous. */
  datatype Pairs = Pairs(ends: map<Ref, End>, bufs: map<Ref, Buf>, cells: map<Ref, seq<Cell>>, log: seq<Transfer>)

  datatype Owners = Owners(
    owns: map<Ref, Own>, tables: map<Ref, TableV>, owners: map<Ref, OwnerV>, codecs: map<Ref, CodecV>)

  datatype World = World(p: Pairs, o: Owners, h: Homes)

  // ---------------------------------------------------------------- buffer copy

  /** What the callbacks reached by one copy will answer. */
  datatype Faults = Faults(
    beginSource: Status, beginDestination: Status, ranges: Status,
    liftAt: nat, lift: Status, lowerAt: nat, lower: Status,
    commit: Status, receive: Status, destroy: Status)

  datatype CopyOut = CopyOut(src: Buf, dst: Buf, sc: seq<Cell>, dc: seq<Cell>, batch: seq<Cell>, status: Status)

  function UnitBatch(n: nat): (s: seq<Cell>)
    ensures |s| == n
  {
    seq(n, _ => Full(0))
  }

  /** Status of lifting cells `i..` of a batch from guest memory. */
  function LiftStatus(batch: seq<Cell>, i: nat, f: Faults): (s: Status)
    requires i <= |batch|
    ensures s == Ok ==> forall k :: i <= k < |batch| ==> batch[k].Full?
    decreases |batch| - i
  {
    if i == |batch| then Ok
    else if i == f.liftAt && f.lift != Ok then f.lift
    else if batch[i].Empty? then Trapped
    else LiftStatus(batch, i + 1, f)
  }

  /** How many cells of a batch are lowered before a fault stops it. */
  function LowerStop(count: nat, f: Faults): (n: nat)
    ensures n <= count
  {
    if f.lower != Ok && f.lowerAt < count then f.lowerAt else count
  }

  function Overwrite(s: seq<Cell>, at: nat, b: seq<Cell>): (r: seq<Cell>)
    requires at + |b| <= |s|
    ensures |r| == |s|
    ensures forall k :: 0 <= k < |s| ==> r[k] == if at <= k < at + |b| then b[k - at] else s[k]
  {
    s[..at] + b + s[at + |b|..]
  }

  function Blank(n: nat): (s: seq<Cell>)
    ensures |s| == n && forall i :: 0 <= i < n ==> s[i] == Empty
  {
    seq(n, _ => Empty)
  }

  predicate CanCopy(src: Buf, dst: Buf, sc: seq<Cell>, dc: seq<Cell>, hasPayload: bool, count: nat) {
    && 0 < count && src.progress + count <= src.length && dst.progress + count <= dst.length
    && (hasPayload ==> src.length <= |sc| && dst.length <= |dc|)
  }

  function CopyValues(src: Buf, dst: Buf, sc: seq<Cell>, dc: seq<Cell>, hasPayload: bool, count: nat,
      f: Faults): (out: CopyOut)
    requires CanCopy(src, dst, sc, dc, hasPayload, count)
    ensures |out.sc| == |sc| && |out.dc| == |dc|
  {
    var src1 := src.(progress := src.progress + count);
    var dst1 := dst.(progress := dst.progress + count);
    if !hasPayload then CopyOut(src1, dst1, sc, dc, UnitBatch(count), Ok)
    else if (src.guest || dst.guest) && f.ranges != Ok then CopyOut(src, dst, sc, dc, [], f.ranges)
    else
      var batch := sc[src.progress..src.progress + count];
      var lifted := if src.guest then LiftStatus(batch, 0, f) else Ok;
      if lifted != Ok then CopyOut(src, dst, sc, dc, [], lifted)
      else
        // Lifting a guest batch consumes it even if the other side then fails.
        var srcL := if src.guest then src1 else src;
        var gone := if src.guest then sc else Overwrite(sc, src.progress, Blank(count));
        if dst.guest then
          var n := LowerStop(count, f);
          var dcN := Overwrite(dc, dst.progress, batch[..n]);
          if n < count then CopyOut(srcL, dst, sc, dcN, [], f.lower)
          else if f.commit != Ok then CopyOut(srcL, dst, sc, dcN, [], f.commit)
          else CopyOut(src1, dst1, gone, dcN, batch, f.destroy)
        else if f.receive != Ok then CopyOut(srcL, dst, sc, dc, [], f.receive)
        else CopyOut(src1, dst1, gone, Overwrite(dc, dst.progress, batch), batch, Ok)
  }

  function BufferCopy(src: Buf, dst: Buf, sc: seq<Cell>, dc: seq<Cell>, hasPayload: bool, count: nat,
      f: Faults): (out: CopyOut)
    requires CanCopy(src, dst, sc, dc, hasPayload, count)
    ensures |out.sc| == |sc| && |out.dc| == |dc|
  {
    if hasPayload && src.guest && f.beginSource != Ok then CopyOut(src, dst, sc, dc, [], f.beginSource)
    else if hasPayload && dst.guest && f.beginDestination != Ok then CopyOut(src, dst, sc, dc, [], f.beginDestination)
    else CopyValues(src, dst, sc, dc, hasPayload, count, f)
  }

  // ---------------------------------------------------------------- invariant

  /** Pointers stored in a snapshot lead back into it. */
  ghost predicate Closed(p: Pairs) {
    && NULL !in p.ends && NULL !in p.bufs
    && (forall e :: e in p.ends && p.ends[e].peer != NULL ==> p.ends[e].peer in p.ends)
    && (forall e :: e in p.ends && p.ends[e].operation != NULL ==> p.ends[e].operation in p.bufs)
    && (forall e :: e in p.ends && p.ends[e].available != NULL ==> p.ends[e].available in p.bufs)
    && (forall b :: b in p.bufs ==> p.bufs[b].values in p.cells && |p.cells[p.bufs[b].values]| == p.bufs[b].capacity)
  }

  /** A pending operation agrees with its buffer. */
  predicate OperationOk(E: End, b: Buf) {
    && b.leased
    && b.progress <= b.length <= COPY_MAX_LENGTH
    && (E.ty.hasPayload ==> b.length <= b.capacity)
    && (E.state.future ==> b.length == 1)
    && (E.failure == Ok ==> b.progress == E.state.progress)
    && (E.available != NULL ==> b.progress < b.length || b.length == 0)
  }

  /** An end that was never opened. */
  const BLANK := End(false, EndType(false, 0, false, false), ZERO, NULL, NULL, NULL, Ok, false, false, [])

  /** What holds of one end by itself. */
  predicate EndOk(E: End) {
    var s := E.state;
    && (!E.initialized ==> E == BLANK)
    && (E.initialized ==> s.future == E.ty.future)
    && (E.closed ==> E.peer == NULL && E.operation == NULL)
    && (E.initialized && !E.closed ==> (s.peerDropped <==> E.peer == NULL))
    && (E.operation != NULL <==> s.phase.Copying? || s.phase.Cancelling?)
    && (E.available != NULL ==> E.available == E.operation && s.phase.Copying? && E.peer != NULL)
    // No event is lost: a finished operation has one, and only then.
    && (s.phase.Idle? ==> (s.pending <==> s.peerDropped))
    && (s.phase.Copying? ==> s.pending || (E.available != NULL && s.progress == 0))
    && (s.phase.Cancelling? ==> s.pending)
    && (s.phase.Done? ==> !s.pending)
    && (s.phase.Idle? && s.pending ==> s.progress == 0)
    && (E.failure != Ok ==> !s.phase.Copying?)
    && (s.future ==> s.progress <= 1)
    && (s.future && s.phase.Copying? && s.pending && !s.peerDropped ==> s.progress == 1)
  }

  /** What holds of two linked ends. */
  predicate LinkOk(E: End, P: End) {
    && E.initialized && !E.closed
    && E.readable != P.readable && E.ty == P.ty
    && E.failure == P.failure
    && (E.available == NULL || P.available == NULL)
  }

  ghost predicate EndsOk(p: Pairs) {
    forall e :: e in p.ends ==> EndOk(p.ends[e])
  }

  ghost predicate OperationsOk(p: Pairs) {
    forall e :: e in p.ends && p.ends[e].operation != NULL ==>
      p.ends[e].operation in p.bufs && OperationOk(p.ends[e], p.bufs[p.ends[e].operation])
  }

  ghost predicate LinksOk(p: Pairs) {
    forall e :: e in p.ends && p.ends[e].peer != NULL ==>
      p.ends[e].peer in p.ends && p.ends[e].peer != e && p.ends[p.ends[e].peer].peer == e
        && LinkOk(p.ends[e], p.ends[p.ends[e].peer])
  }

  /** No buffer is lent to two ends. */
  ghost predicate Unshared(p: Pairs) {
    forall e, f :: e in p.ends && f in p.ends && e != f && p.ends[e].operation != NULL ==>
      p.ends[e].operation != p.ends[f].operation
  }

  /** A lent buffer is lent to someone. */
  ghost predicate LeasesHeld(p: Pairs) {
    forall b :: b in p.bufs && p.bufs[b].leased ==> exists e :: e in p.ends && p.ends[e].operation == b
  }

  ghost predicate PairInv(p: Pairs) {
    Closed(p) && EndsOk(p) && OperationsOk(p) && LinksOk(p) && Unshared(p) && LeasesHeld(p)
  }

  // ---------------------------------------------------------------- rendezvous

  predicate Live(E: End, o: Own) {
    E.initialized && !E.closed && o.valueOwner == NULL
  }

  predicate NumericOrUnit(t: EndType) {
    !t.hasPayload || t.numeric
  }

  predicate Overlaps(a: Buf, b: Buf) {
    !a.guest && !b.guest && a.length != 0 && b.length != 0 && a.values == b.values
  }

  function Poison(E: End, status: Status): End {
    E.(failure := status, available := NULL)
  }

  function Fail(E: End, status: Status): End {
    E.(failure := status, available := NULL,
       state := if CancelRequested(E.state, false).Some? then CancelRequested(E.state, false).value else E.state)
  }

  ghost predicate CanTransfer(p: Pairs, reader: Ref, writer: Ref, count: nat) {
    && reader in p.ends && writer in p.ends && reader != writer
    && var R, W := p.ends[reader], p.ends[writer];
    && R.operation != NULL && W.operation != NULL && R.operation != W.operation
    && R.operation in p.bufs && W.operation in p.bufs
    && var src, dst := p.bufs[W.operation], p.bufs[R.operation];
    && src.values in p.cells && dst.values in p.cells
    && CanCopy(src, dst, p.cells[src.values], p.cells[dst.values], R.ty.hasPayload, count)
  }

  /** The copy between two linked operations. */
  ghost function Copied(p: Pairs, reader: Ref, writer: Ref, count: nat, f: Faults): CopyOut
    requires CanTransfer(p, reader, writer, count)
  {
    var src, dst := p.bufs[p.ends[writer].operation], p.bufs[p.ends[reader].operation];
    BufferCopy(src, dst, p.cells[src.values], p.cells[dst.values], p.ends[reader].ty.hasPayload, count, f)
  }

  /** Its effect on the cells and the buffers. */
  ghost function Moved(p: Pairs, rb: Ref, wb: Ref, out: CopyOut): Pairs {
    var more := if out.status == Ok then out.batch else [];
    var cells1 := p.cells[out.dst.values := out.dc];
    p.(bufs := p.bufs[wb := out.src.(moved := out.src.moved + more)][rb := out.dst.(moved := out.dst.moved + more)],
       cells := if out.src.guest then cells1 else cells1[out.src.values := out.sc])
  }

  /** Copies between two linked operations; a failed copy poisons both ends. */
  ghost function TransferBuffers(p: Pairs, reader: Ref, writer: Ref, count: nat, f: Faults): (r: (Pairs, Status))
    requires CanTransfer(p, reader, writer, count)
  {
    var R, W := p.ends[reader], p.ends[writer];
    var out := Copied(p, reader, writer, count, f);
    var q := Moved(p, R.operation, W.operation, out);
    if out.status == Ok then
      (q.(log := q.log + [Transfer(writer, reader, out.batch)]), Ok)
    else if CancelRequested(R.state, false).None? then
      (q.(ends := q.ends[reader := Poison(R, out.status)][writer := Poison(W, out.status)]), Trapped)
    else
      (q.(ends := q.ends[reader := Fail(R, out.status)][writer := Fail(W, out.status)]),
       if CancelRequested(W.state, false).Some? then out.status else Trapped)
  }

  // ---------------------------------------------------------------- submit

  predicate HasFull(s: seq<Cell>, n: nat)
    requires n <= |s|
  {
    exists i :: 0 <= i < n && s[i].Full?
  }

  predicate HasEmpty(s: seq<Cell>, n: nat)
    requires n <= |s|
  {
    exists i :: 0 <= i < n && s[i].Empty?
  }

  /** `guestCheck` is the answer of the guest memory range and type checks. */
  function ValidateBuffer(E: End, v: Buf, cells: seq<Cell>, guestCheck: Status): (s: Status)
    ensures s == Ok ==> !v.leased && v.length <= COPY_MAX_LENGTH && (E.state.future ==> v.length == 1)
    ensures s == Ok && E.ty.hasPayload ==> v.length <= |cells|
  {
    if v.leased || v.length > COPY_MAX_LENGTH || (E.state.future && v.length != 1) then InvalidArgument
    else if !E.ty.hasPayload || v.length == 0 then Ok
    else if v.guest then (if guestCheck != Ok then guestCheck else if v.length > |cells| then Trapped else Ok)
    else if v.length > |cells| then InvalidArgument
    else if E.readable then (if HasFull(cells, v.length) then InvalidArgument else Ok)
    else if HasEmpty(cells, v.length) then TypeMismatch
    else Ok
  }

  /** What a rendezvous will do, decided before anything is changed. */
  datatype Plan = Plan(self: EndpointState, peer: EndpointState, count: nat, selfAvailable: bool, otherFinished: bool)

  /** `P` is the peer's state and `other` the buffer it has waiting, if any. */
  function PlanSubmit(E: End, length: nat, P: Option<EndpointState>, other: Option<Buf>): Option<Plan> {
    if Begun(E.state).None? then None
    else
      var self := Begun(E.state).value;
      if P.None? then
        if self.peerDropped && self.pending then Some(Plan(self, ZERO, 0, false, false)) else None
      else if other.None? then Some(Plan(self, P.value, 0, true, false))
      else PlanRendezvous(E.readable, self, P.value, length, other.value)
  }

  function PlanRendezvous(readable: bool, self: EndpointState, peer: EndpointState, length: nat, o: Buf): Option<Plan> {
    if o.progress > o.length || !o.leased then None
    else
      var remaining := o.length - o.progress;
      if length != 0 && remaining != 0 then
        var count := Min(length, remaining);
        if Notified(self, count).None? || Notified(peer, o.progress + count).None? then None
        else Some(Plan(Notified(self, count).value, Notified(peer, o.progress + count).value, count, false,
                       count == remaining))
      else if length != 0 || (readable && remaining == 0) then
        // The peer's zero-length operation completes; this one waits.
        if Notified(peer, 0).None? then None else Some(Plan(self, Notified(peer, 0).value, 0, true, true))
      else
        if Notified(self, 0).None? then None else Some(Plan(Notified(self, 0).value, peer, 0, false, false))
  }

  ghost function SubmitPlan(p: Pairs, e: Ref, b: Ref): (plan: Option<Plan>)
    requires Closed(p) && e in p.ends && b in p.bufs
  {
    var E := p.ends[e];
    if E.peer == NULL then PlanSubmit(E, p.bufs[b].length, None, None)
    else
      var P := p.ends[E.peer];
      PlanSubmit(E, p.bufs[b].length, Some(P.state), if P.available == NULL then None else Some(p.bufs[P.available]))
  }

  function LentEnd(E: End, b: Ref, count: nat): End {
    E.(operation := b, state := if count != 0 then E.state.(phase := Copying) else E.state)
  }

  function AdmittedEnd(E: End, b: Ref, plan: Plan): End {
    E.(operation := b, available := if plan.selfAvailable then b else NULL, state := plan.self)
  }

  function AdmittedPeer(P: End, plan: Plan): End {
    P.(state := plan.peer, available := if plan.otherFinished then NULL else P.available)
  }

  function LentBuf(v: Buf, cells: seq<Cell>): Buf {
    v.(progress := 0, leased := true, lent := cells, moved := [])
  }

  ghost function Lend(p: Pairs, e: Ref, b: Ref, count: nat): Pairs
    requires e in p.ends && b in p.bufs && p.bufs[b].values in p.cells
  {
    p.(bufs := p.bufs[b := LentBuf(p.bufs[b], p.cells[p.bufs[b].values])],
      ends := p.ends[e := LentEnd(p.ends[e], b, count)])
  }

  /** The reading one of two linked ends, and the writing one. */
  ghost function ReaderOf(p: Pairs, e: Ref): Ref
    requires e in p.ends && p.ends[e].peer != NULL
  {
    if p.ends[e].readable then e else p.ends[e].peer
  }

  ghost function WriterOf(p: Pairs, e: Ref): Ref
    requires e in p.ends && p.ends[e].peer != NULL
  {
    if p.ends[e].readable then p.ends[e].peer else e
  }

  ghost predicate CanAdmit(p: Pairs, e: Ref, b: Ref, plan: Plan) {
    && e in p.ends && b in p.bufs && p.bufs[b].values in p.cells
    && (plan.count != 0 ==>
         p.ends[e].peer != NULL && CanTransfer(Lend(p, e, b, plan.count), ReaderOf(p, e), WriterOf(p, e), plan.count))
  }

  /** Lends `b`, copies, and installs the planned states. */
  ghost function Admit(p: Pairs, e: Ref, b: Ref, plan: Plan, f: Faults): (q: Pairs)
    requires CanAdmit(p, e, b, plan)
  {
    var E := p.ends[e];
    var lent := Lend(p, e, b, plan.count);
    var (q, status) := if plan.count == 0 then (lent, Ok)
      else TransferBuffers(lent, ReaderOf(p, e), WriterOf(p, e), plan.count, f);
    if status != Ok then q
    else if E.peer == NULL || E.peer !in p.ends then q.(ends := q.ends[e := AdmittedEnd(E, b, plan)])
    else q.(ends := q.ends[e := AdmittedEnd(E, b, plan)][E.peer := AdmittedPeer(p.ends[E.peer], plan)])
  }

  /** Whether the end can take a buffer at all. */
  function SubmitReady(E: End, O: Own, pinned: bool): Status {
    if E.failure != Ok then E.failure
    else if !Live(E, O) || E.operation != NULL || (O.syncWaiter && !pinned) || !E.state.phase.Idle? then InvalidArgument
    else Ok
  }

  /** The two rules between the buffer and the one the peer has waiting. */
  ghost function SubmitClash(w: World, e: Ref, b: Ref): Status
    requires Closed(w.p) && e in w.p.ends && b in w.p.bufs && w.p.ends.Keys == w.o.owns.Keys
  {
    var E, v := w.p.ends[e], w.p.bufs[b];
    var other := if E.peer == NULL then NULL else w.p.ends[E.peer].available;
    if other != NULL && E.ty.hasPayload && Overlaps(v, w.p.bufs[other]) then InvalidArgument
    else if other != NULL && v.length != 0 && w.p.bufs[other].length > w.p.bufs[other].progress && SameTable(w, e)
      && !NumericOrUnit(E.ty) then Trapped
    else Ok
  }

  /** The refusals of `submit`, in their order; `Ok` admits. */
  ghost function SubmitCheck(w: World, e: Ref, b: Ref, pinned: bool, guestCheck: Status): Status
    requires Closed(w.p) && e in w.p.ends && b in w.p.bufs && w.p.ends.Keys == w.o.owns.Keys
  {
    var ready := SubmitReady(w.p.ends[e], w.o.owns[e], pinned);
    var valid := ValidateBuffer(w.p.ends[e], w.p.bufs[b], w.p.cells[w.p.bufs[b].values], guestCheck);
    var clash := SubmitClash(w, e, b);
    if ready != Ok then ready
    else if valid != Ok then valid
    else if clash != Ok then clash
    else if SubmitPlan(w.p, e, b).None? then Trapped
    else Ok
  }

  /** Both linked ends are registered in the same handle table. */
  ghost predicate SameTable(w: World, e: Ref)
    requires e in w.p.ends && e in w.o.owns
  {
    && w.o.owns[e].table != NULL
    && w.p.ends[e].peer != NULL && w.p.ends[e].peer in w.o.owns && w.o.owns[w.p.ends[e].peer].table == w.o.owns[e].table
  }

  // ---------------------------------------------------------------- take, cancel, close

  function ReleasedEnd(E: End, s: EndpointState, moved: seq<Cell>): End {
    E.(state := s, operation := NULL, available := NULL, hist := E.hist + moved)
  }

  /** Delivers an event and returns the buffer. `cleanup` is the answer of the
      buffer's own release hook; a poisoned end reports its failure instead. */
  ghost function Take(w: World, e: Ref, cleanup: Status): (r: (World, Status, nat))
    requires Closed(w.p) && e in w.p.ends && w.p.ends.Keys == w.o.owns.Keys
  {
    var E := w.p.ends[e];
    if !Live(E, w.o.owns[e]) then (w, InvalidArgument, 0)
    else if w.o.owns[e].syncWaiter then (w, Trapped, 0)
    else Deliver(w, e, cleanup)
  }

  ghost function Deliver(w: World, e: Ref, cleanup: Status): (r: (World, Status, nat))
    requires Closed(w.p) && e in w.p.ends
  {
    var E := w.p.ends[e];
    if !E.state.pending then (w, Yielded, 0)
    else if Delivered(E.state).None? then (w, Trapped, 0)
    else
      var d := Delivered(E.state).value;
      (w.(p := Release(w.p, e, d.state)), if E.failure != Ok then E.failure else cleanup, d.payload)
  }

  ghost function Release(p: Pairs, e: Ref, s: EndpointState): Pairs
    requires Closed(p) && e in p.ends
  {
    var E := p.ends[e];
    if E.operation == NULL then p.(ends := p.ends[e := ReleasedEnd(E, s, [])])
    else p.(ends := p.ends[e := ReleasedEnd(E, s, p.bufs[E.operation].moved)],
            bufs := p.bufs[E.operation := p.bufs[E.operation].(leased := false)])
  }

  function CancelledEnd(E: End): End
    requires CancelRequested(E.state, false).Some?
  {
    E.(state := CancelRequested(E.state, false).value, available := NULL)
  }

  ghost function Cancel(w: World, e: Ref): (r: (World, Status))
    requires e in w.p.ends && w.p.ends.Keys == w.o.owns.Keys
  {
    var E := w.p.ends[e];
    if !Live(E, w.o.owns[e]) || w.o.owns[e].syncWaiter then (w, Trapped)
    else if CancelRequested(E.state, false).None? then (w, Trapped)
    else (w.(p := w.p.(ends := w.p.ends[e := CancelledEnd(E)])), Ok)
  }

  /** The closed notification of `e`: the second one of a pair releases its
      instance, which may free the pair. */
  ghost function Note(h: Homes, ends: map<Ref, End>, e: Ref): Homes
    requires e in ends
  {
    if e !in h.homes || !h.homes[e].tracked then h
    else if h.homes[e].pair in h.released then h.(stale := true)
    else if ends[e].closed && h.homes[e].other in ends && ends[h.homes[e].other].closed then
      h.(released := h.released + [h.homes[e].pair])
    else h
  }

  function ClosedEnd(E: End): End {
    E.(peer := NULL, closed := true)
  }

  function DroppedEnd(P: End): End
    requires DroppedByPeer(P.state).Some?
  {
    P.(peer := NULL, available := NULL, state := DroppedByPeer(P.state).value)
  }

  ghost function CloseCheck(w: World, e: Ref): Status
    requires Closed(w.p) && e in w.p.ends && w.p.ends.Keys == w.o.owns.Keys
  {
    var E := w.p.ends[e];
    if !Live(E, w.o.owns[e]) then InvalidArgument
    else if E.operation != NULL || w.o.owns[e].syncWaiter || E.state.phase.Copying? || E.state.phase.Cancelling? then
      Trapped
    else if E.peer != NULL && (w.p.ends[E.peer].peer != e || DroppedByPeer(w.p.ends[E.peer].state).None?) then Trapped
    else if !Registered(w.o, e) then Trapped
    else Ok
  }

  ghost function ClosePairs(p: Pairs, e: Ref): Pairs
    requires Closed(p) && e in p.ends
  {
    var E := p.ends[e];
    if E.peer == NULL then p.(ends := p.ends[e := ClosedEnd(E)])
    else if DroppedByPeer(p.ends[E.peer].state).None? then p
    else p.(ends := p.ends[e := ClosedEnd(E)][E.peer := DroppedEnd(p.ends[E.peer])])
  }

  ghost function Close(w: World, e: Ref): (r: (World, Status))
    requires Closed(w.p) && e in w.p.ends && w.p.ends.Keys == w.o.owns.Keys
  {
    var check := CloseCheck(w, e);
    if check != Ok then (w, check)
    else (World(ClosePairs(w.p, e), Unregister(w.o, e), Note(w.h, ClosePairs(w.p, e).ends, e)), Ok)
  }

  // ---------------------------------------------------------------- registration

  /** An end with a table really occupies the slot its handle names. */
  ghost predicate Registered(o: Owners, e: Ref)
    requires e in o.owns
  {
    var O := o.owns[e];
    O.table != NULL ==>
      O.table in o.tables && O.handle in o.tables[O.table].entries && o.tables[O.table].entries[O.handle] == e
  }

  ghost function Unregister(o: Owners, e: Ref): Owners
    requires e in o.owns
  {
    var O := o.owns[e];
    if O.table == NULL || O.table !in o.tables then o
    else o.(owns := o.owns[e := O.(table := NULL, handle := 0, setHandle := 0)],
            tables := o.tables[O.table := o.tables[O.table].(entries := o.tables[O.table].entries - {O.handle})])
  }

  // ---------------------------------------------------------------- forward

  predicate MovableIdle(E: End, O: Own) {
    && Live(E, O) && E.failure == Ok && E.operation == NULL && E.available == NULL
    && !O.syncWaiter && O.setHandle == 0 && E.state.phase.Idle?
  }

  ghost predicate Forwardable(w: World, e: Ref)
    requires Closed(w.p) && e in w.p.ends && w.p.ends.Keys == w.o.owns.Keys
  {
    var E := w.p.ends[e];
    && MovableIdle(E, w.o.owns[e]) && w.o.owns[e].lowerScope == NULL && Registered(w.o, e)
    && (E.peer != NULL ==> w.p.ends[E.peer].peer == e && !w.p.ends[E.peer].closed)
  }

  datatype Splice = Splice(read: EndpointState, write: EndpointState, count: nat, readDone: bool, writeDone: bool)

  /** What joining two ends does to the operations they have waiting. */
  function PlanSplice(R: EndpointState, W: EndpointState, rb: Buf, wb: Buf): Option<Splice> {
    if !rb.leased || !wb.leased || rb.progress > rb.length || wb.progress > wb.length || !R.phase.Copying?
      || !W.phase.Copying? then None
    else
      var rr, wr := rb.length - rb.progress, wb.length - wb.progress;
      if rr != 0 && wr != 0 then
        var count := Min(rr, wr);
        if Notified(R, rb.progress + count).None? || Notified(W, wb.progress + count).None? then None
        else Some(Splice(Notified(R, rb.progress + count).value, Notified(W, wb.progress + count).value, count,
          count == rr, count == wr))
      else if wr == 0 then
        if Notified(W, 0).None? then None else Some(Splice(R, Notified(W, 0).value, 0, false, true))
      else
        if Notified(R, 0).None? then None else Some(Splice(Notified(R, 0).value, W, 0, true, false))
  }

  /** The splice of two ends that both have a buffer waiting, or nothing to do. */
  ghost function SplicePlan(p: Pairs, reader: Ref, writer: Ref): Option<Splice>
    requires Closed(p) && reader in p.ends && writer in p.ends
  {
    var R, W := p.ends[reader], p.ends[writer];
    if R.available == NULL || W.available == NULL then Some(Splice(R.state, W.state, 0, false, false))
    else if R.available != R.operation || W.available != W.operation then None
    else PlanSplice(R.state, W.state, p.bufs[R.available], p.bufs[W.available])
  }

  /** The two refusals of a rendezvous that depend on the caller's buffers. */
  ghost predicate SpliceRefused(w: World, reader: Ref, writer: Ref)
    requires Closed(w.p) && reader in w.p.ends && writer in w.p.ends && w.p.ends.Keys == w.o.owns.Keys
  {
    var R, W := w.p.ends[reader], w.p.ends[writer];
    && R.available != NULL && W.available != NULL
    && var rb, wb := w.p.bufs[R.available], w.p.bufs[W.available];
    && rb.progress < rb.length && wb.progress < wb.length
    && (|| (R.ty.hasPayload && Overlaps(rb, wb))
        || (w.o.owns[reader].table != NULL && w.o.owns[reader].table == w.o.owns[writer].table && !NumericOrUnit(R.ty)))
  }

  function SplicedEnd(E: End, peer: Ref, s: EndpointState, done: bool): End {
    E.(peer := peer, state := s, available := if done then NULL else E.available)
  }

  /** `source` and `destination` close; their peers become peers. */
  ghost function Join(p: Pairs, source: Ref, destination: Ref, reader: Ref, writer: Ref): Pairs
    requires source in p.ends && destination in p.ends && reader in p.ends && writer in p.ends
  {
    p.(ends := p.ends[source := ClosedEnd(p.ends[source])][destination := ClosedEnd(p.ends[destination])]
                     [reader := p.ends[reader].(peer := writer)][writer := p.ends[writer].(peer := reader)])
  }

  ghost predicate CanSplice(p: Pairs, source: Ref, destination: Ref, plan: Splice) {
    && source in p.ends && destination in p.ends
    && p.ends[source].peer != NULL && p.ends[destination].peer != NULL
    && var writer, reader := p.ends[source].peer, p.ends[destination].peer;
    && reader in p.ends && writer in p.ends
    && (plan.count != 0 ==> CanTransfer(Join(p, source, destination, reader, writer), reader, writer, plan.count))
  }

  ghost function SplicePairs(p: Pairs, source: Ref, destination: Ref, plan: Splice, f: Faults): (r: (Pairs, Status))
    requires CanSplice(p, source, destination, plan)
  {
    var writer, reader := p.ends[source].peer, p.ends[destination].peer;
    var j := Join(p, source, destination, reader, writer);
    var (q, status) := if plan.count == 0 then (j, Ok) else TransferBuffers(j, reader, writer, plan.count, f);
    if status != Ok then (q, status)
    else (q.(ends := q.ends[reader := SplicedEnd(p.ends[reader], writer, plan.read, plan.readDone)]
                           [writer := SplicedEnd(p.ends[writer], reader, plan.write, plan.writeDone)]), Ok)
  }

  ghost function ForwardCheck(w: World, source: Ref, destination: Ref): Status
    requires Closed(w.p) && source in w.p.ends && destination in w.p.ends && w.p.ends.Keys == w.o.owns.Keys
  {
    if !Forwardable(w, source) || !Forwardable(w, destination) || !w.p.ends[source].readable
      || w.p.ends[destination].readable then Trapped
    else if w.p.ends[source].ty != w.p.ends[destination].ty then TypeMismatch
    else Ok
  }

  /** Forwarding ends that are linked to each other, or to nobody, closes both. */
  ghost predicate NothingToJoin(p: Pairs, source: Ref, destination: Ref)
    requires source in p.ends && destination in p.ends
  {
    p.ends[source].peer == destination || p.ends[source].peer == NULL || p.ends[destination].peer == NULL
  }
}
