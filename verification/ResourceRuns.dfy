/**
  The resource codec over whole runs (src/component_exec_async_resource.c):
  commit and rollback are all or nothing, and no run loses, duplicates or
  destroys a resource twice.
 */
module ResourceRuns {
  import opened Common
  import opened ResourceCodec

  // ---------------------------------------------------------------- preflight

  /** The preflight loop from the `i`-th reservation on. */
  ghost function PreflightFrom(w: World, c: Ref, i: nat, borrows: nat): Status
    requires c in w.codecs && w.codecs[c].exec in w.execs && i <= |w.codecs[c].chain| && Listed(w.owners, w.codecs)
    decreases |w.codecs[c].chain| - i
  {
    var C := w.codecs[c];
    if i == |C.chain| then Ok
    else
      var o := C.chain[i];
      var O, X := w.owners[o], w.execs[C.exec];
      if O.scope != c || O.committed || O.reservedIdentity == 0 || O.reserved !in X.entries
        || X.entries[O.reserved] != Reservation(o) then Trapped
      else if !O.borrowed then PreflightFrom(w, c, i + 1, borrows)
      else if !Scoped(w, c) then Trapped
      else if w.tasks[C.task].borrowed + borrows >= MAX32 then OutOfMemory
      else PreflightFrom(w, c, i + 1, borrows + 1)
  }

  /** How many of the reservations from the `i`-th on are for borrows. */
  ghost function BorrowsFrom(w: World, c: Ref, i: nat): nat
    requires c in w.codecs && i <= |w.codecs[c].chain| && Listed(w.owners, w.codecs)
    decreases |w.codecs[c].chain| - i
  {
    if i == |w.codecs[c].chain| then 0
    else (if w.owners[w.codecs[c].chain[i]].borrowed then 1 else 0) + BorrowsFrom(w, c, i + 1)
  }

  lemma {:induction false} ChainFacts(w: World, c: Ref, i: nat)
    requires Inv(w) && c in w.codecs && i < |w.codecs[c].chain|
    ensures w.codecs[c].exec in w.execs && w.codecs[c].chain[i] in w.owners && w.owners[w.codecs[c].chain[i]].scope == c
    ensures c != NULL
    ensures Held(w.execs, w.owners, w.codecs, w.codecs[c].chain[i])
  {
    hide CountsOk, LoansOk, TablesOk, PlacesOk, DestroyedOk, BorrowsOk, NoDuplicates, Held;
    assert w.codecs[c].chain[i] in w.codecs[c].chain;
  }

  lemma {:induction false} CodecListed(w: World, c: Ref)
    requires Inv(w) && c in w.codecs
    ensures w.codecs[c].exec in w.execs && Listed(w.owners, w.codecs)
  {
    hide CountsOk, LoansOk, TablesOk, PlacesOk, DestroyedOk, BorrowsOk;
  }

  /** All borrows from the `i`-th reservation on have a task to count them, with room
      for them and `borrows` more. */
  ghost predicate Room(w: World, c: Ref, i: nat, borrows: nat)
    requires c in w.codecs && i <= |w.codecs[c].chain| && Listed(w.owners, w.codecs)
  {
    BorrowsFrom(w, c, i) == 0
      || (Scoped(w, c) && w.tasks[w.codecs[c].task].borrowed + borrows + BorrowsFrom(w, c, i) <= MAX32)
  }

  /** In every reachable state the consistency checks pass: preflight refuses only
      borrows without a task to hold them, and too many of them. */
  lemma {:induction false} PreflightExactly(w: World, c: Ref, i: nat, borrows: nat)
    requires Inv(w) && c in w.codecs && i <= |w.codecs[c].chain|
    ensures w.codecs[c].exec in w.execs && Listed(w.owners, w.codecs)
    ensures PreflightFrom(w, c, i, borrows) == Ok <==> Room(w, c, i, borrows)
    decreases |w.codecs[c].chain| - i
  {
    hide Inv, Listed;
    CodecListed(w, c);
    if i < |w.codecs[c].chain| {
      ChainFacts(w, c, i);
      PreflightExactly(w, c, i + 1, borrows);
      PreflightExactly(w, c, i + 1, borrows + 1);
    }
  }

  // ---------------------------------------------------------------- commit and rollback

  /** The preflight of `c` succeeds. */
  ghost predicate Ready(w: World, c: Ref)
    requires c in w.codecs
  {
    Listed(w.owners, w.codecs) && Room(w, c, 0, 0)
  }

  /** The turn that publishes the head leaves the other borrows as they are. */
  lemma {:induction false} BorrowsShift(w: World, v: World, c: Ref, i: nat)
    requires Publishable(w, c) && v == PublishOne(w, c) && Listed(w.owners, w.codecs) && Listed(v.owners, v.codecs)
    requires NoDuplicates(w.codecs[c].chain)
    requires i < |w.codecs[c].chain|
    ensures BorrowsFrom(v, c, i) == BorrowsFrom(w, c, i + 1)
    decreases |w.codecs[c].chain| - i
  {
    if i + 1 < |w.codecs[c].chain| {
      BorrowsShift(w, v, c, i + 1);
      assert v.codecs[c].chain[i] == w.codecs[c].chain[i + 1] != w.codecs[c].chain[0];
    }
  }

  lemma {:induction false} ChainOnce(w: World, c: Ref)
    requires Inv(w) && c in w.codecs
    ensures NoDuplicates(w.codecs[c].chain)
  {
    hide CountsOk, LoansOk, TablesOk, PlacesOk, DestroyedOk, BorrowsOk, NoDuplicates;
  }

  /** After a preflight no turn of the commit loop fails: each borrow finds its task
      and room in the counter, up to the last. */
  lemma {:induction false} ReadyTurn(w: World, c: Ref)
    requires Inv(w) && c in w.codecs && w.codecs[c].chain != [] && Ready(w, c)
    ensures c != NULL && Publishable(w, c) && Inv(PublishOne(w, c)) && c in PublishOne(w, c).codecs
    ensures Ready(PublishOne(w, c), c)
  {
    HeadFacts(w, c);
    hide Inv, Listed, HeadOk;
    ReadyHead(w, c);
    PublishKeeps(w, c);
    var v := PublishOne(w, c);
    CodecListed(v, c);
    ChainOnce(w, c);
    BorrowsShift(w, v, c, 0);
    hide BorrowsFrom, NoDuplicates;
    ReadyStep(w, v, c);
  }

  lemma {:induction false} ReadyHead(w: World, c: Ref)
    requires HeadOk(w, c) && Ready(w, c)
    ensures Publishable(w, c)
  {
  }

  lemma {:induction false} ReadyStep(w: World, v: World, c: Ref)
    requires Publishable(w, c) && v == PublishOne(w, c) && Ready(w, c) && Listed(v.owners, v.codecs)
    requires BorrowsFrom(v, c, 0) == BorrowsFrom(w, c, 1)
    ensures Ready(v, c)
  {
    hide Listed;
    assert BorrowsFrom(w, c, 0) == (if w.owners[w.codecs[c].chain[0]].borrowed then 1 else 0) + BorrowsFrom(w, c, 1);
  }

  ghost function CommitAll(w: World, c: Ref): World
    requires Inv(w) && c in w.codecs && Ready(w, c)
    decreases |w.codecs[c].chain|
  {
    if w.codecs[c].chain == [] then w
    else
      ReadyTurn(w, c);
      CommitAll(PublishOne(w, c), c)
  }

  ghost function RollbackAll(w: World, c: Ref): World
    requires Inv(w) && c in w.codecs
    decreases |w.codecs[c].chain|
  {
    if w.codecs[c].chain == [] then w
    else
      HeadFacts(w, c);
      UnreserveKeeps(w, c);
      RollbackAll(UnreserveOne(w, c), c)
  }

  /** `turbowasm_component_exec_resource_codec_commit`. */
  ghost function Commit(w: World, c: Ref): (r: (World, Status))
    requires Inv(w) && c in w.codecs
  {
    CodecListed(w, c);
    PreflightExactly(w, c, 0, 0);
    var check := PreflightFrom(w, c, 0, 0);
    if check != Ok then (w, check) else (CommitAll(w, c), Ok)
  }

  lemma {:induction false} CommitKeeps(w: World, c: Ref)
    requires Inv(w) && c in w.codecs && Ready(w, c)
    ensures Inv(CommitAll(w, c)) && c in CommitAll(w, c).codecs && CommitAll(w, c).codecs[c].chain == []
    decreases |w.codecs[c].chain|
  {
    if w.codecs[c].chain != [] {
      hide Inv, Ready, Publishable;
      ReadyTurn(w, c);
      PublishShortens(w, c);
      CommitKeeps(PublishOne(w, c), c);
    }
  }

  lemma {:induction false} PublishShortens(w: World, c: Ref)
    requires Publishable(w, c)
    ensures c in PublishOne(w, c).codecs && PublishOne(w, c).codecs[c].chain == w.codecs[c].chain[1..]
  {
  }

  lemma {:induction false} RollbackKeeps(w: World, c: Ref)
    requires Inv(w) && c in w.codecs
    ensures Inv(RollbackAll(w, c)) && c in RollbackAll(w, c).codecs && RollbackAll(w, c).codecs[c].chain == []
    decreases |w.codecs[c].chain|
  {
    if w.codecs[c].chain != [] {
      HeadFacts(w, c);
      UnreserveKeeps(w, c);
      hide Inv, HeadOk;
      RollbackKeeps(UnreserveOne(w, c), c);
    }
  }

  ghost function Lookup(w: World, x: Ref, h: nat): Option<Entry> {
    if x in w.execs && h in w.execs[x].entries then Some(w.execs[x].entries[h]) else None
  }

  /** What becomes of a table entry when the reservations of the codec `C` for the
      owners `owners` are published or given up. */
  ghost function Settled(e: Option<Entry>, owners: map<Ref, Owner>, C: Codec, publish: bool): Option<Entry> {
    if e.Some? && e.value.Reservation? && e.value.owner in C.chain && e.value.owner in owners
    then (if publish then Some(Published(owners[e.value.owner], C.task)) else None) else e
  }

  /** The tables of `v` are those of `w` with the reservations of `c` settled. */
  ghost predicate TablesSettled(w: World, v: World, c: Ref, publish: bool)
    requires c in w.codecs
  {
    forall x, h :: Lookup(v, x, h) == Settled(Lookup(w, x, h), w.owners, w.codecs[c], publish)
  }

  /** One turn settles the first reservation, and leaves the others as they are. */
  lemma {:induction false} HeadEntry(w: World, v: World, c: Ref, publish: bool, x: Ref, h: nat)
    requires HeadOk(w, c) && (publish ==> Publishable(w, c))
    requires v == (if publish then PublishOne(w, c) else UnreserveOne(w, c))
    requires Lookup(w, x, h).Some? && Lookup(w, x, h).value.Reservation? ==>
               Backed(w.owners, w.codecs, Lookup(w, x, h).value.owner, x, h)
    ensures c in v.codecs
    ensures Settled(Lookup(v, x, h), v.owners, v.codecs[c], publish) ==
                Settled(Lookup(w, x, h), w.owners, w.codecs[c], publish)
  {
    var C, o := w.codecs[c], w.codecs[c].chain[0];
    assert C.chain == [o] + C.chain[1..];
  }

  lemma {:induction false} HeadSettled(w: World, v: World, u: World, c: Ref, publish: bool)
    requires Inv(w) && HeadOk(w, c) && (publish ==> Publishable(w, c))
    requires v == (if publish then PublishOne(w, c) else UnreserveOne(w, c)) && c in v.codecs && c in w.codecs
    requires TablesSettled(v, u, c, publish)
    ensures TablesSettled(w, u, c, publish)
  {
    hide Inv, HeadOk, Settled, Publishable;
    forall x, h
      ensures Lookup(u, x, h) == Settled(Lookup(w, x, h), w.owners, w.codecs[c], publish)
    {
      assert Lookup(u, x, h) == Settled(Lookup(v, x, h), v.owners, v.codecs[c], publish);
      if Lookup(w, x, h).Some? {
        EntryOwner(w, x, h);
      }
      HeadEntry(w, v, c, publish, x, h);
    }
  }

  /** A commit publishes every reservation of the codec, and nothing else changes
      in any table; nothing is destroyed. */
  lemma {:induction false} CommitPublishes(w: World, c: Ref)
    requires Inv(w) && c in w.codecs && Ready(w, c)
    ensures TablesSettled(w, CommitAll(w, c), c, true) && CommitAll(w, c).destroyed == w.destroyed
    ensures CommitAll(w, c).owners.Keys == w.owners.Keys
    decreases |w.codecs[c].chain|
  {
    if w.codecs[c].chain == [] {
      hide Inv;
    } else {
      HeadFacts(w, c);
      hide Inv, HeadOk, TablesSettled, Published, Ready, Publishable;
      ReadyTurn(w, c);
      PublishShortens(w, c);
      var v := PublishOne(w, c);
      CommitPublishes(v, c);
      HeadSettled(w, v, CommitAll(v, c), c, true);
      HeadOwner(w, c);
    }
  }

  lemma {:induction false} HeadOwner(w: World, c: Ref)
    requires HeadOk(w, c)
    ensures w.codecs[c].chain[0] in w.owners
  {
  }

  /** A rollback gives every reservation of the codec up, and nothing else changes
      in any table; no resource moves and nothing is destroyed. */
  lemma {:induction false} RollbackRestores(w: World, c: Ref)
    requires Inv(w) && c in w.codecs
    ensures TablesSettled(w, RollbackAll(w, c), c, false) && RollbackAll(w, c).place == w.place
    ensures RollbackAll(w, c).destroyed == w.destroyed
    ensures RollbackAll(w, c).owners.Keys == w.owners.Keys
    decreases |w.codecs[c].chain|
  {
    if w.codecs[c].chain == [] {
      hide Inv;
    } else {
      HeadFacts(w, c);
      UnreserveKeeps(w, c);
      hide Inv, HeadOk, TablesSettled;
      var v := UnreserveOne(w, c);
      RollbackRestores(v, c);
      HeadSettled(w, v, RollbackAll(v, c), c, false);
      HeadOwner(w, c);
    }
  }

  lemma {:induction false} EntryOwner(w: World, x: Ref, h: nat)
    requires Inv(w) && x in w.execs && h in w.execs[x].entries
    ensures w.execs[x].entries[h].Reservation? ==> Backed(w.owners, w.codecs, w.execs[x].entries[h].owner, x, h)
  {
    hide CountsOk, LoansOk, TablesOk, PlacesOk, DestroyedOk, BorrowsOk, Linked, Listed, AllHeld, Backed;
  }

  // ---------------------------------------------------------------- runs

  datatype Step =
    | NewStep(exec: Ref, identity: nat, rep: nat, soul: nat)
    | DropStep(exec: Ref, handle: nat, identity: nat)
    | AdoptStep(exec: Ref, identity: nat, rep: nat, borrow: bool, soul: nat, lucky: bool, owner: Ref)
    | LiftStep(codec: Ref, handle: nat, identity: nat, borrow: bool, lucky: bool, owner: Ref)
    | LowerStep(codec: Ref, owner: Ref, identity: nat, matches: bool, admitted: bool, defining: bool)
    | CommitStep(codec: Ref)
    | RollbackStep(codec: Ref)
    | ReleaseStep(owner: Ref)
    | ClearStep(task: Ref)
    | MarkStep(task: Ref, destroying: bool)

  /** The step names things that exist, or fresh ones where it creates them. */
  ghost predicate Known(w: World, s: Step) {
    match s
    case NewStep(x, identity, rep, soul) => x in w.execs && soul !in w.place
    case DropStep(x, h, identity) => x in w.execs
    case AdoptStep(x, identity, rep, borrow, soul, lucky, o) =>
      x in w.execs && o !in w.owners && o != NULL && (!borrow && soul in w.place ==> w.place[soul] == AtHost)
    case LiftStep(c, h, identity, borrow, lucky, o) => c in w.codecs && o !in w.owners && o != NULL
    case LowerStep(c, o, identity, matches, admitted, defining) => c in w.codecs && o in w.owners && identity != 0
    case CommitStep(c) => c in w.codecs
    case RollbackStep(c) => c in w.codecs
    case ReleaseStep(o) => o in w.owners
    case ClearStep(t) => t in w.tasks
    case MarkStep(t, _) => t in w.tasks
  }

  ghost function Do(w: World, s: Step): World
    requires Inv(w) && Known(w, s)
  {
    match s
    case NewStep(x, identity, rep, soul) => NewOwned(w, x, identity, rep, soul).0
    case DropStep(x, h, identity) => DropHandle(w, x, h, identity).0
    case AdoptStep(x, identity, rep, borrow, soul, lucky, o) => Adopt(w, x, identity, rep, borrow, soul, lucky, o).0
    case LiftStep(c, h, identity, borrow, lucky, o) =>
      CodecFacts(w, c);
      Lift(w, c, h, identity, borrow, lucky, o).0
    case LowerStep(c, o, identity, matches, admitted, defining) =>
      CodecFacts(w, c);
      Lower(w, c, o, identity, matches, admitted, defining).0
    case CommitStep(c) => Commit(w, c).0
    case RollbackStep(c) => RollbackAll(w, c)
    case ReleaseStep(o) =>
      ReleaseReady(w, o);
      Release(w, o).0
    case ClearStep(t) =>
      TaskFacts(w, t);
      ClearScope(w, t).0
    case MarkStep(t, destroying) => Mark(w, t, destroying)
  }

  lemma {:induction false} DoKeeps(w: World, s: Step)
    requires Inv(w) && Known(w, s)
    ensures Inv(Do(w, s))
  {
    hide Inv;
    match s
    case NewStep(x, identity, rep, soul) => NewKeeps(w, x, identity, rep, soul);
    case DropStep(x, h, identity) => DropKeeps(w, x, h, identity);
    case AdoptStep(x, identity, rep, borrow, soul, lucky, o) => AdoptKeeps(w, x, identity, rep, borrow, soul, lucky, o);
    case LiftStep(c, h, identity, borrow, lucky, o) => LiftKeeps(w, c, h, identity, borrow, lucky, o);
    case LowerStep(c, o, identity, matches, admitted, defining) =>
      LowerKeeps(w, c, o, identity, matches, admitted, defining);
    case CommitStep(c) =>
      PreflightExactly(w, c, 0, 0);
      if PreflightFrom(w, c, 0, 0) == Ok {
        CommitKeeps(w, c);
      }
    case RollbackStep(c) => RollbackKeeps(w, c);
    case ReleaseStep(o) =>
      ReleaseReady(w, o);
      ReleaseKeeps(w, o);
    case ClearStep(t) =>
      TaskFacts(w, t);
      ClearKeeps(w, t);
    case MarkStep(t, destroying) => MarkKeeps(w, t, destroying);
  }

  /** What is destroyed stays destroyed, and no resource is forgotten. */
  ghost predicate Onward(w: World, v: World) {
    w.destroyed <= v.destroyed && w.place.Keys <= v.place.Keys
  }

  lemma {:induction false} CommitOnward(w: World, c: Ref)
    requires Inv(w) && c in w.codecs && Ready(w, c)
    ensures Onward(w, CommitAll(w, c))
    decreases |w.codecs[c].chain|
  {
    if w.codecs[c].chain != [] {
      HeadFacts(w, c);
      hide Inv, HeadOk, Ready, Publishable;
      ReadyTurn(w, c);
      PublishShortens(w, c);
      CommitOnward(PublishOne(w, c), c);
      HeadOwner(w, c);
    }
  }

  lemma {:induction false} DoOnward(w: World, s: Step)
    requires Inv(w) && Known(w, s)
    ensures Onward(w, Do(w, s))
  {
    hide Inv, PreflightFrom, Settled;
    match s
    case CommitStep(c) =>
      PreflightExactly(w, c, 0, 0);
      if PreflightFrom(w, c, 0, 0) == Ok {
        CommitOnward(w, c);
      }
    case RollbackStep(c) => RollbackRestores(w, c);
    case LiftStep(c, _, _, _, _, _) => CodecFacts(w, c);
    case LowerStep(c, _, _, _, _, _) => CodecFacts(w, c);
    case ReleaseStep(o) => ReleaseReady(w, o);
    case ClearStep(t) => TaskFacts(w, t);
    case _ =>
  }

  /** The state after `steps`, if all of them make sense when it is their turn. */
  ghost function After(w: World, steps: seq<Step>): Option<World>
    requires Inv(w)
    decreases |steps|
  {
    if steps == [] then Some(w)
    else if !Known(w, steps[0]) then None
    else
      DoKeeps(w, steps[0]);
      After(Do(w, steps[0]), steps[1..])
  }

  lemma {:induction false} RunKeeps(w: World, steps: seq<Step>)
    requires Inv(w) && After(w, steps).Some?
    ensures Inv(After(w, steps).value) && Onward(w, After(w, steps).value)
    decreases |steps|
  {
    hide Inv, Known, Do;
    if steps != [] {
      DoKeeps(w, steps[0]);
      DoOnward(w, steps[0]);
      RunKeeps(Do(w, steps[0]), steps[1..]);
    }
  }

  /** Whatever runs, every owned resource that ever existed is in exactly one
      place: one table handle, one value in flight, its host, or destroyed, and
      destroyed once. */
  lemma {:induction false} EveryResourceOnce(w: World, steps: seq<Step>, s: nat, p: Place, q: Place)
    requires Inv(w) && After(w, steps).Some?
    ensures var v := After(w, steps).value;
            && (Sits(v.execs, v.owners, p, s) && Sits(v.execs, v.owners, q, s) ==> p == q)
            && (Sits(v.execs, v.owners, p, s) ==> s in v.place && s !in v.destroyed)
            && (s in w.place ==>
                 s in v.place && (Sits(v.execs, v.owners, v.place[s], s) || v.place[s] == AtHost || s in v.destroyed))
            && NoDuplicates(v.destroyed) && w.destroyed <= v.destroyed
  {
    RunKeeps(w, steps);
    hide After, CountsOk, LoansOk, TablesOk, ChainsOk, Sits, NoDuplicates;
  }

  /** Whatever runs, loan and owner counters say how many borrows and owner
      records are alive, so a release gives back its loan exactly once, and the
      counter of a task says how many borrowed handles it holds. */
  lemma {:induction false} CountersExact(w: World, steps: seq<Step>, x: Ref, h: nat, t: Ref)
    requires Inv(w) && After(w, steps).Some?
    ensures var v := After(w, steps).value;
            && (x in v.execs ==> v.execs[x].owners == |OwnersOf(v.owners, x)|)
            && (x in v.execs && h in v.execs[x].entries && v.execs[x].entries[h].Resource? ==>
                 v.execs[x].entries[h].loans == |LoansOf(v.owners, x, h)|)
            && (t in v.tasks ==>
                 v.tasks[t].exec in v.execs && v.tasks[t].borrowed == |HandlesOf(v.execs[v.tasks[t].exec].entries, t)|)
  {
    RunKeeps(w, steps);
    hide After, TablesOk, ChainsOk, PlacesOk, DestroyedOk, OwnersOf, LoansOf, HandlesOf;
  }
}
