/**
  The resource codec as it runs (src/component_exec_async_resource.c): owner
  records, handle tables and reservation lists changed in place.
 */
module ResourceMachine {
  import opened Common
  import opened ResourceCodec
  import opened ResourceRuns

  class Domain {
    var execs: map<Ref, Exec>
    var owners: map<Ref, Owner>
    var codecs: map<Ref, Codec>
    var tasks: map<Ref, Task>
    ghost var place: map<nat, Place>
    ghost var destroyed: seq<nat>

    ghost function W(): World
      reads this
    {
      World(execs, owners, codecs, tasks, place, destroyed)
    }

    /** `lift_resource` into the fresh record `o`. */
    method Lift(c: Ref, h: nat, identity: nat, borrow: bool, lucky: bool, o: Ref) returns (status: Status)
      requires Inv(W()) && c in codecs && o !in owners && o != NULL
      modifies `execs, `owners, `place
      ensures old(codecs[c].exec) in old(execs)
      ensures (W(), status) == ResourceCodec.Lift(old(W()), c, h, identity, borrow, lucky, o) && Inv(W())
    {
      hide Inv;
      CodecFacts(W(), c);
      LiftKeeps(W(), c, h, identity, borrow, lucky, o);
      var x := codecs[c].exec;
      var X := execs[x];
      if identity == 0 {
        return InvalidArgument;
      }
      if !(h in X.entries && X.entries[h].Resource? && X.entries[h].identity == identity) {
        return Trapped;
      }
      if X.owners >= X.max || !lucky {
        return OutOfMemory;
      }
      var e := X.entries[h];
      var O := Owner(x, identity, e.rep, borrow, h, false, 0, NULL, 0, false, e.soul);
      if borrow {
        if e.loans == MAX32 {
          return Trapped;
        }
        X := X.(entries := X.entries[h := e.(loans := e.loans + 1)]);
      } else {
        if !e.owned || e.loans != 0 {
          return Trapped;
        }
        X := X.(entries := X.entries - {h});
        place := place[e.soul := InFlight(o)];
      }
      X := X.(owners := X.owners + 1);
      execs := execs[x := X];
      owners := owners[o := O];
      return Ok;
    }

    /** `lower_resource`; a borrow into the defining instance gives its representation. */
    method Lower(c: Ref, o: Ref, identity: nat, matches: bool, admitted: bool, defining: bool)
        returns (status: Status, handle: nat)
      requires Inv(W()) && c in codecs && o in owners && identity != 0
      modifies `execs, `owners, `codecs
      ensures old(codecs[c].exec) in old(execs)
      ensures (W(), status) == ResourceCodec.Lower(old(W()), c, o, identity, matches, admitted, defining) && Inv(W())
      ensures status == Ok ==> handle == if defining && owners[o].borrowed then owners[o].rep else owners[o].reserved
    {
      hide Inv;
      CodecFacts(W(), c);
      LowerKeeps(W(), c, o, identity, matches, admitted, defining);
      handle := 0;
      var x, O := codecs[c].exec, owners[o];
      var X := execs[x];
      if !matches || O.committed || O.scope != NULL {
        return TypeMismatch, handle;
      }
      if O.host && !admitted {
        return InvalidArgument, handle;
      }
      if O.borrowed {
        if defining {
          return Ok, O.rep;
        }
        if !HasTask(c) {
          return Trapped, handle;
        }
      }
      if |X.entries| >= X.max {
        return OutOfMemory, handle;
      }
      handle := X.next;
      X := X.(entries := X.entries[handle := Reservation(o)], next := X.next + 1);
      execs := execs[x := X];
      O := O.(reserved := handle);
      O := O.(reservedIdentity := identity);
      O := O.(scope := c);
      owners := owners[o := O];
      codecs := codecs[c := codecs[c].(chain := [o] + codecs[c].chain)];
      return Ok, handle;
    }

    /** The codec's task is there, of the codec's instance, and not being destroyed. */
    predicate HasTask(c: Ref)
      requires c in codecs
      reads this
      ensures HasTask(c) == Scoped(W(), c)
    {
      var t := codecs[c].task;
      t in tasks && tasks[t].exec == codecs[c].exec && !tasks[t].destroying
    }

    /** `turbowasm_component_exec_resource_codec_preflight`. */
    method Preflight(c: Ref) returns (status: Status)
      requires Inv(W()) && c in codecs
      ensures codecs[c].exec in execs && Listed(owners, codecs) && status == PreflightFrom(W(), c, 0, 0)
    {
      hide Inv;
      CodecListed(W(), c);
      var C, i, borrows := codecs[c], 0, 0;
      while i < |C.chain|
        invariant 0 <= i <= |C.chain| && PreflightFrom(W(), c, 0, 0) == PreflightFrom(W(), c, i, borrows)
      {
        var o := C.chain[i];
        var O, X := owners[o], execs[C.exec];
        if O.scope != c || O.committed || O.reservedIdentity == 0 || O.reserved !in X.entries
          || X.entries[O.reserved] != Reservation(o) {
          return Trapped;
        }
        if O.borrowed {
          if !HasTask(c) {
            return Trapped;
          }
          if tasks[C.task].borrowed + borrows >= MAX32 {
            return OutOfMemory;
          }
          borrows := borrows + 1;
        }
        i := i + 1;
      }
      return Ok;
    }

    /** Publishes the newest reservation. */
    method PublishHead(c: Ref)
      requires Publishable(W(), c)
      modifies `execs, `owners, `codecs, `tasks, `place
      ensures W() == PublishOne(old(W()), c)
    {
      var C, o := codecs[c], codecs[c].chain[0];
      var X, O := execs[C.exec], owners[o];
      var e := Resource(O.reservedIdentity, O.rep, true, 0, O.soul, NULL);
      if O.borrowed {
        e := e.(owned := false, scope := C.task);
        tasks := tasks[C.task := tasks[C.task].(borrowed := tasks[C.task].borrowed + 1)];
      } else {
        place := place[O.soul := InTable(C.exec, O.reserved)];
      }
      execs := execs[C.exec := X.(entries := X.entries[O.reserved := e])];
      C := C.(chain := C.chain[1..]);
      codecs := codecs[c := C];
      O := O.(scope := NULL, reserved := 0);
      O := O.(committed := true);
      owners := owners[o := O];
    }

    /** Gives the newest reservation up. */
    method UnreserveHead(c: Ref)
      requires HeadOk(W(), c)
      modifies `execs, `owners, `codecs
      ensures W() == UnreserveOne(old(W()), c)
    {
      var C, o := codecs[c], codecs[c].chain[0];
      var X, O := execs[C.exec], owners[o];
      execs := execs[C.exec := X.(entries := X.entries - {O.reserved})];
      codecs := codecs[c := C.(chain := C.chain[1..])];
      owners := owners[o := O.(scope := NULL, reserved := 0)];
    }

    /** `turbowasm_component_exec_resource_codec_commit`: all or nothing. */
    method Commit(c: Ref) returns (status: Status)
      requires Inv(W()) && c in codecs
      modifies `execs, `owners, `codecs, `tasks, `place
      ensures Inv(W()) && (W(), status) == ResourceRuns.Commit(old(W()), c)
    {
      hide Inv, Publishable, PublishOne, PreflightFrom, Ready;
      PreflightReady(W(), c);
      status := Preflight(c);
      if status != Ok {
        return;
      }
      while codecs[c].chain != []
        invariant Inv(W()) && c in codecs && Ready(W(), c) && Ready(old(W()), c)
        invariant CommitAll(old(W()), c) == CommitAll(W(), c)
        decreases |codecs[c].chain|
      {
        ReadyTurn(W(), c);
        PublishShortens(W(), c);
        PublishHead(c);
      }
    }

    /** `turbowasm_component_exec_resource_codec_rollback`. */
    method Rollback(c: Ref)
      requires Inv(W()) && c in codecs
      modifies `execs, `owners, `codecs
      ensures Inv(W()) && W() == RollbackAll(old(W()), c)
    {
      hide Inv, HeadOk, UnreserveOne;
      while codecs[c].chain != []
        invariant Inv(W()) && c in codecs && RollbackAll(old(W()), c) == RollbackAll(W(), c)
        decreases |codecs[c].chain|
      {
        HeadFacts(W(), c);
        UnreserveKeeps(W(), c);
        UnreserveShortens(W(), c);
        UnreserveHead(c);
      }
    }

    /** `turbowasm_component_resource_drop`. */
    method Drop(x: Ref, h: nat, identity: nat) returns (status: Status)
      requires Inv(W()) && x in execs
      modifies `execs, `tasks, `place, `destroyed
      ensures (W(), status) == DropHandle(old(W()), x, h, identity) && Inv(W())
    {
      hide Inv;
      DropKeeps(W(), x, h, identity);
      if identity == 0 {
        return InvalidArgument;
      }
      var X := execs[x];
      if !(h in X.entries && X.entries[h].Resource? && X.entries[h].identity == identity) || X.entries[h].loans != 0 {
        return Trapped;
      }
      DropReady(W(), x, h);
      var e := X.entries[h];
      if e.scope != NULL {
        if tasks[e.scope].borrowed == 0 {
          return Trapped;
        }
        tasks := tasks[e.scope := tasks[e.scope].(borrowed := tasks[e.scope].borrowed - 1)];
      }
      execs := execs[x := X.(entries := X.entries - {h})];
      if e.owned {
        place := place[e.soul := Destroyed];
        destroyed := destroyed + [e.soul];
      }
      return Ok;
    }

    /** The first loop of `turbowasm_component_resource_scope_clear`: how many handles
        `t` has, if none of them is lent on. */
    method CountScope(X: Exec, t: Ref) returns (ok: bool, count: nat)
      requires t != NULL
      ensures ok == !LentOn(X.entries, t) && (ok ==> count == |HandlesOf(X.entries, t)|)
    {
      var left := X.entries.Keys;
      count := 0;
      assert HandlesOf(X.entries, t) - left == {};
      while left != {}
        invariant left <= X.entries.Keys && count == |HandlesOf(X.entries, t) - left|
        invariant forall h :: h in X.entries && h !in left && X.entries[h].Resource? && X.entries[h].scope == t ==>
                    X.entries[h].loans == 0
        decreases |left|
      {
        var h :| h in left;
        HandlesDone(X.entries, left, h, t);
        var e := X.entries[h];
        if e.Resource? && e.scope == t {
          if e.loans != 0 {
            return false, count;
          }
          count := count + 1;
        }
        left := left - {h};
      }
      NoneLent(X.entries, t);
      assert HandlesOf(X.entries, t) - left == HandlesOf(X.entries, t);
      ok := true;
    }

    /** The second loop: removes the handles of `t`, each off the counter. */
    method RemoveScope(X: Exec, t: Ref, counter: nat) returns (entries: map<nat, Entry>, borrowed: nat)
      requires t != NULL && |HandlesOf(X.entries, t)| <= counter
      ensures entries == Without(X.entries, t) && borrowed == counter - |HandlesOf(X.entries, t)|
    {
      hide HandlesOf;
      var left := X.entries.Keys;
      entries, borrowed := X.entries, counter;
      HandlesStart(X.entries, t);
      while left != {}
        invariant left <= X.entries.Keys
        invariant forall h :: h in entries <==> h in X.entries && (h in left || ScopeAt(X.entries, h) != t)
        invariant forall h :: h in entries ==> entries[h] == X.entries[h]
        invariant borrowed == counter - |HandlesOf(X.entries, t) - left|
        decreases |left|
      {
        var h :| h in left;
        HandlesDone(X.entries, left, h, t);
        HandlesBound(X.entries, left - {h}, t);
        if X.entries[h].Resource? && X.entries[h].scope == t {
          entries := entries - {h};
          borrowed := borrowed - 1;
        }
        left := left - {h};
      }
      assert HandlesOf(X.entries, t) - left == HandlesOf(X.entries, t);
    }

    /** `turbowasm_component_resource_scope_clear`. */
    method Clear(t: Ref) returns (status: Status)
      requires Inv(W()) && t in tasks
      modifies `execs, `tasks
      ensures old(tasks[t].exec) in old(execs) && (W(), status) == ClearScope(old(W()), t) && Inv(W())
      ensures status == Ok ==> tasks[t].borrowed == 0
    {
      hide Inv, LentOn, HandlesOf, Without;
      TaskFacts(W(), t);
      ClearKeeps(W(), t);
      var x := tasks[t].exec;
      var X := execs[x];
      var ok, count := CountScope(X, t);
      if !ok || count > tasks[t].borrowed {
        return Trapped;
      }
      var entries, borrowed := RemoveScope(X, t, tasks[t].borrowed);
      execs := execs[x := X.(entries := entries)];
      tasks := tasks[t := tasks[t].(borrowed := borrowed)];
      return Ok;
    }

    /** `release_resource`. A loan that is given back is always there. */
    method Release(o: Ref) returns (status: Status)
      requires Inv(W()) && o in owners
      modifies `execs, `owners, `place, `destroyed
      ensures Inv(W())
      ensures status == Trapped <==> old(owners[o].scope) != NULL
      ensures status == Trapped ==> W() == old(W())
      ensures status == Ok ==> o !in owners && owners == old(owners) - {o}
      ensures status == Ok ==>
                destroyed == old(destroyed) + if Carries(old(owners[o])) && !old(owners[o].host) then
                [old(owners[o].soul)] else []
      ensures status == Ok || status == Trapped
    {
      hide Inv, Lent;
      ReleaseReady(W(), o);
      ReleaseKeeps(W(), o);
      var O := owners[o];
      if O.scope != NULL {
        return Trapped;
      }
      var X := execs[O.exec];
      if !O.host {
        if O.borrowed {
          LentEntry(execs, O);
          X := X.(entries := X.entries[O.lender := X.entries[O.lender].(loans := X.entries[O.lender].loans - 1)]);
        } else if !O.committed {
          place := place[O.soul := Destroyed];
          destroyed := destroyed + [O.soul];
        }
      } else if !O.borrowed && !O.committed {
        place := place[O.soul := AtHost];
      }
      X := X.(owners := X.owners - 1);
      execs := execs[O.exec := X];
      owners := owners - {o};
      assert W() == ResourceCodec.Release(old(W()), o).0;
      return Ok;
    }
  }

  lemma {:induction false} LentEntry(execs: map<Ref, Exec>, O: Owner)
    requires Lent(execs, O)
    ensures O.exec in execs && O.lender in execs[O.exec].entries && execs[O.exec].entries[O.lender].Resource?
  {
  }

  lemma {:induction false} PreflightReady(w: World, c: Ref)
    requires Inv(w) && c in w.codecs
    ensures w.codecs[c].exec in w.execs && Listed(w.owners, w.codecs)
    ensures (PreflightFrom(w, c, 0, 0) == Ok <==> Ready(w, c))
  {
    hide Inv, Listed;
    PreflightExactly(w, c, 0, 0);
  }

  lemma {:induction false} DropReady(w: World, x: Ref, h: nat)
    requires Inv(w) && x in w.execs && h in w.execs[x].entries && w.execs[x].entries[h].Resource?
    ensures w.execs[x].entries[h].scope != NULL ==> w.execs[x].entries[h].scope in w.tasks
    ensures NULL !in w.tasks
  {
    hide CountsOk, LoansOk, TablesOk, ChainsOk, PlacesOk, DestroyedOk, HandlesOf;
    assert ScopeAt(w.execs[x].entries, h) == w.execs[x].entries[h].scope;
  }

  /** The loop has looked at all handles but those in `left`. */
  lemma {:induction false} NoneLent(entries: map<nat, Entry>, t: Ref)
    requires forall h :: h in entries && entries[h].Resource? && entries[h].scope == t ==> entries[h].loans == 0
    ensures !LentOn(entries, t)
  {
  }

  lemma {:induction false} HandlesDone(entries: map<nat, Entry>, left: set<nat>, h: nat, t: Ref)
    requires h in left && left <= entries.Keys && t != NULL
    ensures HandlesOf(entries, t) - left <= HandlesOf(entries, t) - (left - {h})
    ensures |HandlesOf(entries, t) - (left - {h})| == |HandlesOf(entries, t) - left| + if ScopeAt(entries, h) == t then
              1 else 0
  {
    var done, more := HandlesOf(entries, t) - left, HandlesOf(entries, t) - (left - {h});
    assert more == done + if ScopeAt(entries, h) == t then {h} else {};
  }

  lemma {:induction false} HandlesStart(entries: map<nat, Entry>, t: Ref)
    ensures HandlesOf(entries, t) - entries.Keys == {}
  {
  }

  lemma {:induction false} HandlesBound(entries: map<nat, Entry>, left: set<nat>, t: Ref)
    ensures |HandlesOf(entries, t) - left| <= |HandlesOf(entries, t)|
  {
    var all, part := HandlesOf(entries, t), HandlesOf(entries, t) - left;
    assert all == part + (all - part) && part !! (all - part);
    assert |all| == |part| + |all - part|;
  }

  lemma {:induction false} UnreserveShortens(w: World, c: Ref)
    requires HeadOk(w, c)
    ensures c in UnreserveOne(w, c).codecs && UnreserveOne(w, c).codecs[c].chain == w.codecs[c].chain[1..]
  {
  }
}
