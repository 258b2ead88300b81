/**
  Counters that never overflow, and what happens to one resource on its way from
  one component to another (src/component_exec_async_resource.c): lifted out of
  a handle table, lowered into another, committed and released.
 */
module ResourceJourneys {
  import opened Common
  import opened ResourceCodec
  import opened ResourceRuns

  // ---------------------------------------------------------------- counters

  /** The tables and counters of an instance are within their limits. */
  ghost predicate ExecFits(X: Exec) {
    && |X.entries| <= X.max && X.owners <= X.max
    && (forall h :: h in X.entries && X.entries[h].Resource? ==> X.entries[h].loans <= 4294967295)
  }

  ghost predicate TasksFit(tasks: map<Ref, Task>) {
    forall t :: t in tasks ==> tasks[t].borrowed <= 4294967295
  }

  ghost predicate Fits(w: World) {
    (forall x :: x in w.execs ==> ExecFits(w.execs[x])) && TasksFit(w.tasks)
  }

  lemma {:induction false} EntryPut(X: Exec, h: nat, e: Entry)
    ensures |X.entries[h := e]| == |X.entries| + if h in X.entries then 0 else 1
    ensures |X.entries - {h}| == |X.entries| - if h in X.entries then 1 else 0
  {
    assert X.entries[h := e].Keys == X.entries.Keys + {h};
    assert (X.entries - {h}).Keys == X.entries.Keys - {h};
    assert |X.entries.Keys| == |X.entries| && |X.entries[h := e].Keys| == |X.entries[h := e]|;
    assert |(X.entries - {h}).Keys| == |X.entries - {h}|;
  }

  lemma {:induction false} FitsPut(w: World, v: World, x: Ref, Y: Exec)
    requires Fits(w) && v.execs == w.execs[x := Y] && TasksFit(v.tasks) && ExecFits(Y)
    ensures Fits(v)
  {
    hide ExecFits, TasksFit;
  }

  lemma {:induction false} UncountedFits(tasks: map<Ref, Task>, t: Ref)
    requires TasksFit(tasks)
    ensures TasksFit(Uncounted(tasks, t))
  {
  }

  lemma {:induction false} LiftFits(w: World, c: Ref, h: nat, identity: nat, borrow: bool, lucky: bool, o: Ref)
    requires Fits(w) && c in w.codecs && w.codecs[c].exec in w.execs
    ensures Fits(Lift(w, c, h, identity, borrow, lucky, o).0)
  {
    var x := w.codecs[c].exec;
    var X := w.execs[x];
    assert ExecFits(X);
    if Names(X, h, identity) {
      EntryPut(X, h, X.entries[h].(loans := X.entries[h].loans + 1));
    }
  }

  lemma {:induction false} LowerFits(w: World, c: Ref, o: Ref, identity: nat, matches: bool, admitted: bool,
      defining: bool)
    requires Fits(w) && c in w.codecs && w.codecs[c].exec in w.execs && o in w.owners
    ensures Fits(Lower(w, c, o, identity, matches, admitted, defining).0)
  {
    var X := w.execs[w.codecs[c].exec];
    assert ExecFits(X);
    EntryPut(X, X.next, Reservation(o));
  }

  lemma {:induction false} PublishFits(w: World, c: Ref)
    requires Fits(w) && Publishable(w, c)
    ensures Fits(PublishOne(w, c))
  {
    var C, o := w.codecs[c], w.codecs[c].chain[0];
    var X := w.execs[C.exec];
    assert ExecFits(X);
    EntryPut(X, w.owners[o].reserved, Published(w.owners[o], C.task));
  }

  lemma {:induction false} CommitFits(w: World, c: Ref)
    requires Inv(w) && c in w.codecs && Ready(w, c) && Fits(w)
    ensures Fits(CommitAll(w, c))
    decreases |w.codecs[c].chain|
  {
    if w.codecs[c].chain != [] {
      hide Inv, Ready, Publishable, Fits;
      ReadyTurn(w, c);
      PublishShortens(w, c);
      PublishFits(w, c);
      CommitFits(PublishOne(w, c), c);
    }
  }

  lemma {:induction false} RollbackFits(w: World, c: Ref)
    requires Inv(w) && c in w.codecs && Fits(w)
    ensures Fits(RollbackAll(w, c))
    decreases |w.codecs[c].chain|
  {
    if w.codecs[c].chain != [] {
      HeadFacts(w, c);
      UnreserveKeeps(w, c);
      UnreserveFits(w, c);
      hide Inv, HeadOk, Fits;
      RollbackFits(UnreserveOne(w, c), c);
    }
  }

  lemma {:induction false} UnreserveFits(w: World, c: Ref)
    requires Fits(w) && HeadOk(w, c)
    ensures Fits(UnreserveOne(w, c))
  {
    var C, o := w.codecs[c], w.codecs[c].chain[0];
    assert ExecFits(w.execs[C.exec]);
    EntryPut(w.execs[C.exec], w.owners[o].reserved, Reservation(o));
  }

  lemma {:induction false} ReleaseFits(w: World, o: Ref)
    requires Inv(w) && o in w.owners && Fits(w)
    requires w.owners[o].exec in w.execs && w.execs[w.owners[o].exec].owners > 0
    requires w.owners[o].borrowed && !w.owners[o].host ==>
               Lent(w.execs, w.owners[o]) && w.execs[w.owners[o].exec].entries[w.owners[o].lender].loans > 0
    ensures Fits(Release(w, o).0)
  {
    hide Inv;
    var X := w.execs[w.owners[o].exec];
    assert ExecFits(X);
    if w.owners[o].borrowed && !w.owners[o].host {
      var h := w.owners[o].lender;
      EntryPut(X, h, X.entries[h].(loans := X.entries[h].loans - 1));
    }
  }

  lemma {:induction false} DropFits(w: World, x: Ref, h: nat, identity: nat)
    requires Fits(w) && x in w.execs
    ensures Fits(DropHandle(w, x, h, identity).0)
  {
    var X := w.execs[x];
    assert ExecFits(X);
    EntryPut(X, h, Reservation(0));
    var Y := X.(entries := X.entries - {h});
    assert ExecFits(Y);
    var v := DropHandle(w, x, h, identity).0;
    hide Fits, ExecFits, TasksFit;
    if v != w {
      TasksOf(w);
      UncountedFits(w.tasks, X.entries[h].scope);
      FitsPut(w, v, x, Y);
    }
  }

  lemma {:induction false} TasksOf(w: World)
    requires Fits(w)
    ensures TasksFit(w.tasks)
  {
  }

  lemma {:induction false} NewFits(w: World, x: Ref, identity: nat, rep: nat, soul: nat)
    requires Fits(w) && x in w.execs
    ensures Fits(NewOwned(w, x, identity, rep, soul).0)
  {
    var X := w.execs[x];
    assert ExecFits(X);
    var Y := X.(entries := X.entries[X.next := Resource(identity, rep, true, 0, soul, NULL)], next := X.next + 1);
    EntryPut(X, X.next, Resource(identity, rep, true, 0, soul, NULL));
    if |X.entries| < X.max {
      assert ExecFits(Y);
      hide Fits, ExecFits, TasksFit;
      TasksOf(w);
      FitsPut(w, w.(execs := w.execs[x := Y], place := w.place[soul := InTable(x, X.next)]), x, Y);
    }
  }

  lemma {:induction false} ClearFits(w: World, t: Ref)
    requires Fits(w) && t in w.tasks && w.tasks[t].exec in w.execs
    ensures Fits(ClearScope(w, t).0)
  {
    hide HandlesOf;
    var X := w.execs[w.tasks[t].exec];
    assert ExecFits(X);
    KeysFewer(Without(X.entries, t).Keys, X.entries.Keys);
    assert |Without(X.entries, t).Keys| == |Without(X.entries, t)| && |X.entries.Keys| == |X.entries|;
  }

  lemma {:induction false} KeysFewer(a: set<nat>, b: set<nat>)
    requires a <= b
    ensures |a| <= |b|
  {
    assert b == a + (b - a);
  }

  lemma {:induction false} DoFits(w: World, s: Step)
    requires Inv(w) && Known(w, s) && Fits(w)
    ensures Fits(Do(w, s))
  {
    hide Inv, Fits, Lift, Lower, CommitAll, RollbackAll, Release, ClearScope, DropHandle, NewOwned, Ready;
    hide PreflightFrom;
    match s
    case NewStep(x, identity, rep, soul) => NewFits(w, x, identity, rep, soul);
    case DropStep(x, h, identity) => DropFits(w, x, h, identity);
    case AdoptStep(x, identity, rep, borrow, soul, lucky, o) => AdoptFits(w, x, identity, rep, borrow, soul, lucky, o);
    case LiftStep(c, h, identity, borrow, lucky, o) =>
      CodecFacts(w, c);
      LiftFits(w, c, h, identity, borrow, lucky, o);
    case LowerStep(c, o, identity, matches, admitted, defining) =>
      CodecFacts(w, c);
      LowerFits(w, c, o, identity, matches, admitted, defining);
    case CommitStep(c) => CommitStepFits(w, c);
    case RollbackStep(c) => RollbackFits(w, c);
    case ReleaseStep(o) =>
      ReleaseReady(w, o);
      ReleaseFits(w, o);
    case ClearStep(t) =>
      TaskFacts(w, t);
      ClearFits(w, t);
    case MarkStep(t, destroying) => MarkFits(w, t, destroying);
  }

  lemma {:induction false} CommitStepFits(w: World, c: Ref)
    requires Inv(w) && c in w.codecs && Fits(w)
    ensures Fits(Commit(w, c).0)
  {
    hide Inv, Fits, CommitAll, PreflightFrom;
    PreflightExactly(w, c, 0, 0);
    if PreflightFrom(w, c, 0, 0) == Ok {
      CommitFits(w, c);
    }
  }

  lemma {:induction false} AdoptFits(w: World, x: Ref, identity: nat, rep: nat, borrow: bool, soul: nat, lucky: bool,
      o: Ref)
    requires Fits(w) && x in w.execs
    ensures Fits(Adopt(w, x, identity, rep, borrow, soul, lucky, o).0)
  {
    assert ExecFits(w.execs[x]);
  }

  lemma {:induction false} MarkFits(w: World, t: Ref, destroying: bool)
    requires Fits(w) && t in w.tasks
    ensures Fits(Mark(w, t, destroying))
  {
    hide ExecFits;
  }

  /** Over any run no counter overflows: loans and the borrows of a task stay within
      32 bits, and tables and owner records within the limit of their instance. */
  lemma {:induction false} CountersFit(w: World, steps: seq<Step>)
    requires Inv(w) && Fits(w) && After(w, steps).Some?
    ensures Fits(After(w, steps).value)
    decreases |steps|
  {
    hide Inv, Known, Do, Fits;
    if steps != [] {
      DoKeeps(w, steps[0]);
      DoFits(w, steps[0]);
      CountersFit(Do(w, steps[0]), steps[1..]);
    }
  }

  // ---------------------------------------------------------------- one resource

  /** What may be lifted, and by whom: a resource of the type asked for, by its
      owner if it is not lent, and by any holder of a handle if it is borrowed. */
  lemma {:induction false} LiftExactly(w: World, c: Ref, h: nat, identity: nat, borrow: bool, lucky: bool, o: Ref)
    requires Inv(w) && Fits(w) && c in w.codecs
    ensures w.codecs[c].exec in w.execs
    ensures var X := w.execs[w.codecs[c].exec]; var (v, status) := Lift(w, c, h, identity, borrow, lucky, o);
            && (status == Ok <==>
                 && identity != 0 && h in X.entries && X.entries[h].Resource? && X.entries[h].identity == identity
                 && lucky && X.owners < X.max
                 && (if borrow then X.entries[h].loans < 4294967295 else X.entries[h].owned && X.entries[h].loans == 0))
            && (status != Ok ==> v == w)
  {
    CodecFacts(w, c);
    hide Inv;
    assert ExecFits(w.execs[w.codecs[c].exec]);
  }

  /** What may be lowered: a value of the type asked for that is neither published
      nor reserved already, one of the host's only once the host has admitted it,
      and a borrow only for a task of this very instance that is not being
      destroyed, unless the instance defines the resource. Then the next handle
      is reserved; in the last case nothing changes. */
  lemma {:induction false} LowerExactly(w: World, c: Ref, o: Ref, identity: nat, matches: bool, admitted: bool,
      defining: bool)
    requires Inv(w) && c in w.codecs && o in w.owners
    ensures w.codecs[c].exec in w.execs
    ensures var O, C := w.owners[o], w.codecs[c]; var X := w.execs[C.exec];
            var (v, status) := Lower(w, c, o, identity, matches, admitted, defining);
            var task := C.task in w.tasks && w.tasks[C.task].exec == C.exec && !w.tasks[C.task].destroying;
            && (status == Ok <==>
                 && matches && !O.committed && O.scope == NULL && (O.host ==> admitted)
                 && ((O.borrowed && defining) || ((O.borrowed ==> task) && |X.entries| < X.max)))
            && (status != Ok || (O.borrowed && defining) ==> v == w)
            && (status == Ok && !(O.borrowed && defining) ==> Lookup(v, C.exec, X.next) == Some(Reservation(o)))
  {
    CodecFacts(w, c);
    hide Inv;
  }

  /** Lifting from the handle `h` of `c`, lowering what was lifted into `d`, and
      committing there, all successfully. */
  ghost predicate Passes(w: World, c: Ref, h: nat, identity: nat, borrow: bool, o: Ref, d: Ref, target: nat, v1: World,
                         v2: World, v3: World) {
    && Inv(w) && Inv(v1) && Inv(v2) && c in w.codecs && w.codecs[c].exec in w.execs && o !in w.owners && o != NULL
    && Lift(w, c, h, identity, borrow, true, o) == (v1, Ok)
    && d in v1.codecs && v1.codecs[d].exec in v1.execs && o in v1.owners && target != 0
    && Lower(v1, d, o, target, true, true, false) == (v2, Ok)
    && d in v2.codecs && Commit(v2, d) == (v3, Ok)
  }

  lemma {:induction false} LoweredEntry(w: World, d: Ref, o: Ref, target: nat)
    requires Inv(w) && d in w.codecs && w.codecs[d].exec in w.execs && o in w.owners
    requires Lower(w, d, o, target, true, true, false).1 == Ok
    ensures var v := Lower(w, d, o, target, true, true, false).0; var y := w.codecs[d].exec;
            && d in v.codecs && v.codecs[d].chain == [o] + w.codecs[d].chain && v.codecs[d].task == w.codecs[d].task
            && Lookup(v, y, w.execs[y].next) == Some(Reservation(o)) && o in v.owners
            && v.owners[o] == w.owners[o].(reserved := w.execs[y].next, scope := d, reservedIdentity := target)
            && v.place == w.place && v.destroyed == w.destroyed
            && (forall x, g :: (x != y || g != w.execs[y].next) ==> Lookup(v, x, g) == Lookup(w, x, g))
  {
    hide Inv;
  }

  /** Whether owned or borrowed, the resource arrives at the next handle of the
      other table with the type asked for and its own representation, owned
      exactly if it was not borrowed. An owned one has left the first table; a
      borrowed one stays there, with one more loan. Nothing is destroyed. */
  lemma {:induction false} ResourcePassed(w: World, c: Ref, h: nat, identity: nat, borrow: bool, o: Ref, d: Ref,
      target: nat, v1: World, v2: World, v3: World)
    requires Passes(w, c, h, identity, borrow, o, d, target, v1, v2, v3)
    ensures var x, y := w.codecs[c].exec, v1.codecs[d].exec; var g := v1.execs[y].next;
            && Lookup(w, x, h).Some? && Lookup(w, x, h).value.Resource?
            && var e := Lookup(w, x, h).value;
            && Lookup(v3, y, g) ==
                 Some(Resource(target, e.rep, !borrow, 0, e.soul, if borrow then v1.codecs[d].task else NULL))
            && Lookup(v3, x, h) == (if borrow then Some(e.(loans := e.loans + 1)) else None)
            && v3.destroyed == w.destroyed
  {
    LiftedEntry(w, c, h, identity, borrow, o);
    HandleTaken(w, w.codecs[c].exec, h);
    hide Inv, Lift, Lower, Settled, Lookup;
    LoweredEntry(v1, d, o, target);
    CommitSettles(v2, d);
    var x, y := w.codecs[c].exec, v1.codecs[d].exec;
    var g := v1.execs[y].next;
    assert Lookup(v3, y, g) == Settled(Lookup(v2, y, g), v2.owners, v2.codecs[d], true);
    assert Lookup(v3, x, h) == Settled(Lookup(v2, x, h), v2.owners, v2.codecs[d], true);
    SettledReservation(v2, d, o);
    SettledOther(Lookup(v1, x, h), v2.owners, v2.codecs[d]);
  }

  lemma {:induction false} SettledReservation(v: World, d: Ref, o: Ref)
    requires d in v.codecs && o in v.codecs[d].chain && o in v.owners
    ensures Settled(Some(Reservation(o)), v.owners, v.codecs[d], true) == Some(Published(v.owners[o], v.codecs[d].task))
  {
  }

  lemma {:induction false} SettledOther(e: Option<Entry>, owners: map<Ref, Owner>, C: Codec)
    requires e.Some? ==> e.value.Resource?
    ensures Settled(e, owners, C, true) == e
  {
  }

  lemma {:induction false} CommitSettles(w: World, d: Ref)
    requires Inv(w) && d in w.codecs && Commit(w, d).1 == Ok
    ensures TablesSettled(w, Commit(w, d).0, d, true) && Commit(w, d).0.destroyed == w.destroyed
  {
    hide Inv, CommitAll, PreflightFrom, TablesSettled;
    PreflightExactly(w, d, 0, 0);
    CommitPublishes(w, d);
  }

  lemma {:induction false} LiftedEntry(w: World, c: Ref, h: nat, identity: nat, borrow: bool, o: Ref)
    requires c in w.codecs && w.codecs[c].exec in w.execs && Lift(w, c, h, identity, borrow, true, o).1 == Ok
    ensures var v := Lift(w, c, h, identity, borrow, true, o).0; var x := w.codecs[c].exec;
            && Lookup(w, x, h).Some? && Lookup(w, x, h).value.Resource? && o in v.owners
            && var e := Lookup(w, x, h).value;
            && Lookup(v, x, h) == (if borrow then Some(e.(loans := e.loans + 1)) else None)
            && v.owners[o] == Owner(x, identity, e.rep, borrow, h, false, 0, NULL, 0, false, e.soul)
            && v.destroyed == w.destroyed && v.codecs == w.codecs && x in v.execs && v.execs[x].next == w.execs[x].next
  {
  }

  /** A handle in use is not the next one. */
  lemma {:induction false} HandleTaken(w: World, x: Ref, h: nat)
    requires Inv(w) && x in w.execs && h in w.execs[x].entries
    ensures h < w.execs[x].next
  {
    hide CountsOk, LoansOk, ChainsOk, PlacesOk, DestroyedOk, BorrowsOk;
  }

  /** A commit marks the owner records of its reservations, and no others. */
  lemma {:induction false} CommitOwner(w: World, c: Ref, o: Ref)
    requires Inv(w) && c in w.codecs && Ready(w, c) && o in w.owners
    ensures o in CommitAll(w, c).owners
    ensures CommitAll(w, c).owners[o] ==
              if o in w.codecs[c].chain then w.owners[o].(scope := NULL, reserved := 0, committed := true)
              else w.owners[o]
    decreases |w.codecs[c].chain|
  {
    if w.codecs[c].chain != [] {
      ChainOnce(w, c);
      hide Inv, Ready, Publishable;
      ReadyTurn(w, c);
      PublishShortens(w, c);
      PublishedOwner(w, c, o);
      CommitOwner(PublishOne(w, c), c, o);
    }
  }

  lemma {:induction false} ChainOnce(w: World, c: Ref)
    requires Inv(w) && c in w.codecs && w.codecs[c].chain != []
    ensures var s := w.codecs[c].chain; s[0] !in s[1..] && forall o :: o in s <==> o == s[0] || o in s[1..]
  {
    hide CountsOk, LoansOk, TablesOk, PlacesOk, DestroyedOk, BorrowsOk;
    var s := w.codecs[c].chain;
    assert NoDuplicates(s) && s == [s[0]] + s[1..];
  }

  lemma {:induction false} PublishedOwner(w: World, c: Ref, o: Ref)
    requires Publishable(w, c) && o in w.owners
    ensures o in PublishOne(w, c).owners
    ensures PublishOne(w, c).owners[o] ==
              if o == w.codecs[c].chain[0] then w.owners[o].(scope := NULL, reserved := 0, committed := true)
              else w.owners[o]
  {
  }

  /** Releasing a borrowed resource that was passed on gives the loan back: the
      handle it came from is what it was before. */
  lemma {:induction false} BorrowReturned(w: World, c: Ref, h: nat, identity: nat, o: Ref, d: Ref, target: nat,
      v1: World, v2: World, v3: World)
    requires Passes(w, c, h, identity, true, o, d, target, v1, v2, v3)
    ensures Inv(v3) && o in v3.owners && v3.owners[o].exec in v3.execs && v3.execs[v3.owners[o].exec].owners > 0
    ensures v3.owners[o].borrowed && !v3.owners[o].host ==>
              Lent(v3.execs, v3.owners[o]) && v3.execs[v3.owners[o].exec].entries[v3.owners[o].lender].loans > 0
    ensures Release(v3, o).1 == Ok
    ensures Lookup(Release(v3, o).0, w.codecs[c].exec, h) == Lookup(w, w.codecs[c].exec, h)
  {
    hide Inv, Lift, Lower, Commit, Lookup, Release, Lent;
    LiftedEntry(w, c, h, identity, true, o);
    ResourcePassed(w, c, h, identity, true, o, d, target, v1, v2, v3);
    LoweredEntry(v1, d, o, target);
    CommittedOwner(v2, d, o);
    ReleaseReady(v3, o);
    ReleasedLoan(v3, o);
  }

  lemma {:induction false} CommittedOwner(w: World, d: Ref, o: Ref)
    requires Inv(w) && d in w.codecs && Commit(w, d).1 == Ok && o in w.owners && o in w.codecs[d].chain
    ensures var v := Commit(w, d).0;
            Inv(v) && o in v.owners && v.owners[o] == w.owners[o].(scope := NULL, reserved := 0, committed := true)
  {
    hide Inv, CommitAll, PreflightFrom;
    PreflightExactly(w, d, 0, 0);
    CommitKeeps(w, d);
    CommitOwner(w, d, o);
  }

  lemma {:induction false} ReleasedLoan(w: World, o: Ref)
    requires o in w.owners && w.owners[o].exec in w.execs && w.execs[w.owners[o].exec].owners > 0
    requires w.owners[o].borrowed && !w.owners[o].host && w.owners[o].scope == NULL
    requires Lent(w.execs, w.owners[o]) && w.execs[w.owners[o].exec].entries[w.owners[o].lender].loans > 0
    ensures var x, h := w.owners[o].exec, w.owners[o].lender; var e := w.execs[x].entries[h];
            && Release(w, o).1 == Ok && Lookup(w, x, h) == Some(e)
            && Lookup(Release(w, o).0, x, h) == Some(e.(loans := e.loans - 1))
  {
  }
}
