/**
  Resources on their way between components (src/component_exec_async_resource.c
  and the handle tables of src/component_resource.c): lifting takes a resource out
  of a table or lends it, lowering reserves a handle for it, and a codec commits
  or rolls back all its reservations.
 */
module ResourceCodec {
  import opened Common

  type Ref = nat
  const NULL: Ref := 0

  /** A handle table entry. `soul` tells owned resources apart, whatever their
      representation; `scope` is the component task that counts a published borrow. */
  datatype Entry =
    | Resource(identity: nat, rep: nat, owned: bool, loans: nat, soul: nat, scope: Ref)
    | Reservation(owner: Ref)

  /** A component instance: its handle table and its counter of owner records. */
  datatype Exec = Exec(entries: map<nat, Entry>, next: nat, owners: nat, max: nat)

  /** An owner record. `lender` is the handle that a borrowed resource was lent from. */
  datatype Owner = Owner(exec: Ref, identity: nat, rep: nat, borrowed: bool, lender: nat, committed: bool,
      reserved: nat, scope: Ref,
                         reservedIdentity: nat, host: bool, soul: nat)

  /** A codec: the instance it lowers into, its reservations, newest first, and the
      task that its borrows are counted for, if any. */
  datatype Codec = Codec(exec: Ref, chain: seq<Ref>, task: Ref)

  /** A task of an instance and how many borrowed handles it holds. */
  datatype Task = Task(exec: Ref, borrowed: nat, destroying: bool)

  /** Where an owned resource is. */
  datatype Place = InTable(exec: Ref, handle: nat) | InFlight(owner: Ref) | AtHost | Destroyed

  // ---------------------------------------------------------------- what always holds

  ghost predicate NoDuplicates(s: seq<Ref>) {
    forall i, j :: 0 <= i < j < |s| ==> s[i] != s[j]
  }

  /** The owner record carries a resource of its own. */
  predicate Carries(O: Owner) {
    !O.borrowed && !O.committed
  }

  /** The owner record holds a loan on a handle. */
  predicate Borrows(O: Owner, x: Ref, h: nat) {
    O.borrowed && !O.host && O.exec == x && O.lender == h
  }

  ghost function OwnersOf(owners: map<Ref, Owner>, x: Ref): set<Ref> {
    set o | o in owners && owners[o].exec == x
  }

  ghost function LoansOf(owners: map<Ref, Owner>, x: Ref, h: nat): set<Ref> {
    set o | o in owners && Borrows(owners[o], x, h)
  }

  /** The owner counter is the number of live owner records. */
  ghost predicate CountsOk(execs: map<Ref, Exec>, owners: map<Ref, Owner>) {
    && (forall o :: o in owners ==> owners[o].exec in execs)
    && (forall x :: x in execs ==> execs[x].owners == |OwnersOf(owners, x)|)
  }

  /** A loan counter is the number of live borrows, and a lent handle stays. */
  ghost predicate LoansOk(execs: map<Ref, Exec>, owners: map<Ref, Owner>) {
    && (forall x, h :: x in execs && h in execs[x].entries && execs[x].entries[h].Resource? ==>
          execs[x].entries[h].loans == |LoansOf(owners, x, h)|)
    && (forall o :: o in owners && owners[o].borrowed && !owners[o].host ==> Lent(execs, owners[o]))
  }

  ghost predicate Lent(execs: map<Ref, Exec>, O: Owner) {
    && O.exec in execs && O.lender in execs[O.exec].entries
    && execs[O.exec].entries[O.lender].Resource? && execs[O.exec].entries[O.lender].identity == O.identity != 0
  }

  ghost predicate TablesOk(execs: map<Ref, Exec>) {
    forall x, h :: x in execs && h in execs[x].entries ==> h < execs[x].next
  }

  /** The reservations of a codec are exactly the entries that were reserved for it. */
  ghost predicate ChainsOk(execs: map<Ref, Exec>, owners: map<Ref, Owner>, codecs: map<Ref, Codec>) {
    NULL !in owners && NULL !in codecs && Linked(execs, codecs) && Listed(owners, codecs)
      && AllHeld(execs, owners, codecs) && AllBacked(execs, owners, codecs)
  }

  ghost predicate Linked(execs: map<Ref, Exec>, codecs: map<Ref, Codec>) {
    forall c :: c in codecs ==> codecs[c].exec in execs && NoDuplicates(codecs[c].chain)
  }

  ghost predicate Listed(owners: map<Ref, Owner>, codecs: map<Ref, Codec>) {
    forall c, o :: c in codecs && o in codecs[c].chain ==> o in owners && owners[o].scope == c
  }

  ghost predicate AllHeld(execs: map<Ref, Exec>, owners: map<Ref, Owner>, codecs: map<Ref, Codec>) {
    forall o :: o in owners && owners[o].scope != NULL ==> Held(execs, owners, codecs, o)
  }

  ghost predicate AllBacked(execs: map<Ref, Exec>, owners: map<Ref, Owner>, codecs: map<Ref, Codec>) {
    forall x, h :: x in execs && h in execs[x].entries && execs[x].entries[h].Reservation? ==>
      Backed(owners, codecs, execs[x].entries[h].owner, x, h)
  }

  /** The reservation at `h` of `x` belongs to `o`. */
  ghost predicate Backed(owners: map<Ref, Owner>, codecs: map<Ref, Codec>, o: Ref, x: Ref, h: nat) {
    o in owners && owners[o].scope in codecs && codecs[owners[o].scope].exec == x && owners[o].reserved == h
  }

  ghost predicate Held(execs: map<Ref, Exec>, owners: map<Ref, Owner>, codecs: map<Ref, Codec>, o: Ref)
    requires o in owners
  {
    var O := owners[o];
    && O.scope in codecs && o in codecs[O.scope].chain && !O.committed && O.reservedIdentity != 0
    && codecs[O.scope].exec in execs && O.reserved in execs[codecs[O.scope].exec].entries
    && execs[codecs[O.scope].exec].entries[O.reserved] == Reservation(o)
  }

  /** The owned resource `s` is to be found at `p`. */
  ghost predicate Sits(execs: map<Ref, Exec>, owners: map<Ref, Owner>, p: Place, s: nat) {
    match p
    case InTable(x, h) =>
      && x in execs && h in execs[x].entries && execs[x].entries[h].Resource?
      && execs[x].entries[h].owned && execs[x].entries[h].soul == s
    case InFlight(o) => o in owners && Carries(owners[o]) && owners[o].soul == s
    case AtHost => false
    case Destroyed => false
  }

  /** Every owned resource is to be found exactly where `place` says. */
  ghost predicate PlacesOk(execs: map<Ref, Exec>, owners: map<Ref, Owner>, place: map<nat, Place>) {
    && (forall p, s :: Sits(execs, owners, p, s) ==> s in place && place[s] == p)
    && (forall s :: s in place && (place[s].InTable? || place[s].InFlight?) ==> Sits(execs, owners, place[s], s))
  }

  /** A resource was destroyed exactly if it is nowhere else, and then once. */
  ghost predicate DestroyedOk(place: map<nat, Place>, destroyed: seq<nat>) {
    && NoDuplicates(destroyed)
    && (forall s :: s in destroyed <==> s in place && place[s] == Destroyed)
  }

  /** Which component task counts the handle `h`. */
  function ScopeAt(entries: map<nat, Entry>, h: nat): (t: Ref)
    ensures t != NULL ==> h in entries && entries[h].Resource?
  {
    if h in entries && entries[h].Resource? then entries[h].scope else NULL
  }

  ghost function HandlesOf(entries: map<nat, Entry>, t: Ref): set<nat> {
    set h | h in entries && ScopeAt(entries, h) == t
  }

  /** The borrow counter of a task is the number of its live borrowed handles, all in
      the table of its instance. */
  ghost predicate BorrowsOk(execs: map<Ref, Exec>, tasks: map<Ref, Task>) {
    && NULL !in tasks
    && (forall t :: t in tasks ==>
         tasks[t].exec in execs && tasks[t].borrowed == |HandlesOf(execs[tasks[t].exec].entries, t)|)
    && (forall x, h :: x in execs && ScopeAt(execs[x].entries, h) != NULL ==>
          && !execs[x].entries[h].owned
          && ScopeAt(execs[x].entries, h) in tasks && tasks[ScopeAt(execs[x].entries, h)].exec == x)
  }

  // ---------------------------------------------------------------- counting

  lemma {:induction false} CountAdded(owners: map<Ref, Owner>, o: Ref, O: Owner, x: Ref, h: nat)
    requires o !in owners
    ensures |OwnersOf(owners[o := O], x)| == |OwnersOf(owners, x)| + if O.exec == x then 1 else 0
    ensures |LoansOf(owners[o := O], x, h)| == |LoansOf(owners, x, h)| + if Borrows(O, x, h) then 1 else 0
  {
    if O.exec == x {
      assert OwnersOf(owners[o := O], x) == OwnersOf(owners, x) + {o};
    } else {
      assert OwnersOf(owners[o := O], x) == OwnersOf(owners, x);
    }
    if Borrows(O, x, h) {
      assert LoansOf(owners[o := O], x, h) == LoansOf(owners, x, h) + {o};
    } else {
      assert LoansOf(owners[o := O], x, h) == LoansOf(owners, x, h);
    }
  }

  lemma {:induction false} CountRemoved(owners: map<Ref, Owner>, o: Ref, x: Ref, h: nat)
    requires o in owners
    ensures |OwnersOf(owners, x)| == |OwnersOf(owners - {o}, x)| + if owners[o].exec == x then 1 else 0
    ensures |LoansOf(owners, x, h)| == |LoansOf(owners - {o}, x, h)| + if Borrows(owners[o], x, h) then 1 else 0
  {
    var less := owners - {o};
    assert owners == less[o := owners[o]];
    CountAdded(less, o, owners[o], x, h);
  }

  lemma {:induction false} CountKept(owners: map<Ref, Owner>, o: Ref, O: Owner, x: Ref, h: nat)
    requires o in owners && O.exec == owners[o].exec && O.borrowed == owners[o].borrowed && O.host == owners[o].host
    requires O.lender == owners[o].lender
    ensures OwnersOf(owners[o := O], x) == OwnersOf(owners, x) && LoansOf(owners[o := O], x, h) == LoansOf(owners, x, h)
  {
  }

  // ---------------------------------------------------------------- the state and its steps

  datatype World = World(execs: map<Ref, Exec>, owners: map<Ref, Owner>, codecs: map<Ref, Codec>, tasks: map<Ref, Task>,
                         place: map<nat, Place>, destroyed: seq<nat>)

  ghost predicate Inv(w: World) {
    && CountsOk(w.execs, w.owners) && LoansOk(w.execs, w.owners) && TablesOk(w.execs)
    && ChainsOk(w.execs, w.owners, w.codecs) && PlacesOk(w.execs, w.owners, w.place)
    && DestroyedOk(w.place, w.destroyed)
    && BorrowsOk(w.execs, w.tasks)
  }

  // Borrowed handles that stay.

  /** No handle comes to be counted by another component task. */
  ghost predicate ScopesKept(execs: map<Ref, Exec>, execs': map<Ref, Exec>) {
    && execs'.Keys == execs.Keys
    && (forall x, h :: x in execs ==> ScopeAt(execs'[x].entries, h) == ScopeAt(execs[x].entries, h))
    && (forall x, h :: x in execs && ScopeAt(execs[x].entries, h) != NULL ==>
         execs'[x].entries[h].owned == execs[x].entries[h].owned)
  }

  lemma {:induction false} HandlesKept(entries: map<nat, Entry>, entries': map<nat, Entry>, t: Ref)
    requires t != NULL && forall h :: ScopeAt(entries', h) == ScopeAt(entries, h)
    ensures HandlesOf(entries', t) == HandlesOf(entries, t)
  {
    forall h
      ensures h in HandlesOf(entries', t) <==> h in HandlesOf(entries, t)
    {
      assert ScopeAt(entries', h) == ScopeAt(entries, h);
    }
  }

  lemma {:induction false} BorrowsKept(execs: map<Ref, Exec>, tasks: map<Ref, Task>, execs': map<Ref, Exec>)
    requires BorrowsOk(execs, tasks) && ScopesKept(execs, execs')
    ensures BorrowsOk(execs', tasks)
  {
    hide HandlesOf, ScopeAt;
    forall t | t in tasks
      ensures tasks[t].exec in execs' && tasks[t].borrowed == |HandlesOf(execs'[tasks[t].exec].entries, t)|
    {
      HandlesKept(execs[tasks[t].exec].entries, execs'[tasks[t].exec].entries, t);
    }
  }

  /** One handle of instance `x` comes to be counted for `t`, or no longer is. */
  lemma {:induction false} HandleMoves(entries: map<nat, Entry>, entries': map<nat, Entry>, h: nat, t: Ref, u: Ref)
    requires t != NULL && u != NULL && (forall g :: g != h ==> ScopeAt(entries', g) == ScopeAt(entries, g))
    requires ScopeAt(entries, h) == NULL && ScopeAt(entries', h) == t
    ensures |HandlesOf(entries', u)| == |HandlesOf(entries, u)| + if u == t then 1 else 0
  {
    var more := if u == t then {h} else {};
    forall g
      ensures g in HandlesOf(entries', u) <==> g in HandlesOf(entries, u) + more
    {
      assert g != h ==> ScopeAt(entries', g) == ScopeAt(entries, g);
    }
    assert HandlesOf(entries', u) == HandlesOf(entries, u) + more;
  }

  /** `turbowasm_component_resource_rep`: the handle names a resource of this type. */
  predicate Names(X: Exec, h: nat, identity: nat) {
    h in X.entries && X.entries[h].Resource? && X.entries[h].identity == identity
  }

  function LiftCheck(X: Exec, h: nat, identity: nat, borrow: bool, lucky: bool): Status {
    if identity == 0 then InvalidArgument
    else if !Names(X, h, identity) then Trapped
    else if X.owners >= X.max || !lucky then OutOfMemory
    else if borrow then (if X.entries[h].loans == MAX32 then Trapped else Ok)
    else if !X.entries[h].owned || X.entries[h].loans != 0 then Trapped
    else Ok
  }

  /** `lift_resource` into the fresh owner record `o`. */
  ghost function Lift(w: World, c: Ref, h: nat, identity: nat, borrow: bool, lucky: bool, o: Ref): (r: (World, Status))
    requires c in w.codecs && w.codecs[c].exec in w.execs
  {
    var x := w.codecs[c].exec;
    var X := w.execs[x];
    var check := LiftCheck(X, h, identity, borrow, lucky);
    if check != Ok then (w, check)
    else
      var e := X.entries[h];
      var O := Owner(x, identity, e.rep, borrow, h, false, 0, NULL, 0, false, e.soul);
      if borrow then
        (w.(execs := w.execs[x := X.(entries := X.entries[h := e.(loans := e.loans + 1)], owners := X.owners + 1)],
          owners := w.owners[o := O]), Ok)
      else
        (w.(execs := w.execs[x := X.(entries := X.entries - {h}, owners := X.owners + 1)], owners := w.owners[o := O],
            place := w.place[e.soul := InFlight(o)]), Ok)
  }

  lemma {:induction false} AddOwnerCounts(execs: map<Ref, Exec>, owners: map<Ref, Owner>, o: Ref, O: Owner, X: Exec)
    requires CountsOk(execs, owners) && o !in owners && O.exec in execs && X.owners == execs[O.exec].owners + 1
    ensures CountsOk(execs[O.exec := X], owners[o := O])
  {
    forall x | x in execs
      ensures execs[O.exec := X][x].owners == |OwnersOf(owners[o := O], x)|
    {
      CountAdded(owners, o, O, x, 0);
    }
  }

  /** A new owner record, with the loan that it holds or without a handle. */
  lemma {:induction false} AddOwnerLoans(execs: map<Ref, Exec>, owners: map<Ref, Owner>, o: Ref, O: Owner, X: Exec)
    requires LoansOk(execs, owners) && o !in owners && O.exec in execs
    requires forall h :: h in X.entries ==> h in execs[O.exec].entries
    requires forall h :: h in X.entries && X.entries[h].Resource? ==>
               && execs[O.exec].entries[h].Resource? && X.entries[h].identity == execs[O.exec].entries[h].identity
               && X.entries[h].loans == execs[O.exec].entries[h].loans + if Borrows(O, O.exec, h) then 1 else 0
    requires forall h :: h in execs[O.exec].entries && execs[O.exec].entries[h].Resource? &&
                         execs[O.exec].entries[h].loans != 0 ==>
               h in X.entries && X.entries[h].Resource?
    requires O.borrowed && !O.host ==> Lent(execs[O.exec := X], O)
    ensures LoansOk(execs[O.exec := X], owners[o := O])
  {
    var y := execs[O.exec := X];
    forall x, h | x in y && h in y[x].entries && y[x].entries[h].Resource?
      ensures y[x].entries[h].loans == |LoansOf(owners[o := O], x, h)|
    {
      CountAdded(owners, o, O, x, h);
    }
    forall p | p in owners && owners[p].borrowed && !owners[p].host
      ensures Lent(y, owners[p])
    {
      assert Lent(execs, owners[p]);
      var P := owners[p];
      assert p in LoansOf(owners, P.exec, P.lender);
      assert execs[P.exec].entries[P.lender].loans != 0;
    }
  }

  /** Only the resource `s` moved, to `p`. */
  lemma {:induction false} PlacesMoved(execs: map<Ref, Exec>, owners: map<Ref, Owner>, place: map<nat, Place>,
                                       execs': map<Ref, Exec>, owners': map<Ref, Owner>, s: nat, p: Place)
    requires PlacesOk(execs, owners, place)
    requires forall q, t :: t != s ==> (Sits(execs', owners', q, t) <==> Sits(execs, owners, q, t))
    requires forall q :: Sits(execs', owners', q, s) <==> q == p && (p.InTable? || p.InFlight?)
    ensures PlacesOk(execs', owners', place[s := p])
  {
    hide Sits;
  }

  lemma {:induction false} PlacesSame(execs: map<Ref, Exec>, owners: map<Ref, Owner>, place: map<nat, Place>,
      execs': map<Ref, Exec>, owners': map<Ref, Owner>)
    requires PlacesOk(execs, owners, place)
    requires forall q, t :: Sits(execs', owners', q, t) <==> Sits(execs, owners, q, t)
    ensures PlacesOk(execs', owners', place)
  {
    hide Sits;
  }

  /** A step that neither touches a reservation nor an owner that has one. */
  ghost predicate ReservationsKept(execs: map<Ref, Exec>, owners: map<Ref, Owner>, execs': map<Ref, Exec>,
      owners': map<Ref, Owner>) {
    && execs'.Keys == execs.Keys && NULL !in owners'
    && (forall x, h :: x in execs && h in execs[x].entries && execs[x].entries[h].Reservation? ==>
         h in execs'[x].entries && execs'[x].entries[h] == execs[x].entries[h])
    && (forall x, h :: x in execs && h in execs'[x].entries && execs'[x].entries[h].Reservation? ==>
         h in execs[x].entries && execs[x].entries[h] == execs'[x].entries[h])
    && (forall o :: o in owners && owners[o].scope != NULL ==> o in owners' && owners'[o] == owners[o])
    && (forall o :: o in owners' && owners'[o].scope != NULL ==> o in owners && owners'[o] == owners[o])
  }

  lemma {:induction false} ChainsKept(execs: map<Ref, Exec>, owners: map<Ref, Owner>, codecs: map<Ref, Codec>,
      execs': map<Ref, Exec>, owners': map<Ref, Owner>)
    requires ChainsOk(execs, owners, codecs) && ReservationsKept(execs, owners, execs', owners')
    ensures ChainsOk(execs', owners', codecs)
  {
    hide NoDuplicates;
    forall o | o in owners' && owners'[o].scope != NULL
      ensures Held(execs', owners', codecs, o)
    {
      assert Held(execs, owners, codecs, o);
    }
  }

  lemma {:induction false} LiftPlaces(w: World, c: Ref, h: nat, identity: nat, borrow: bool, lucky: bool, o: Ref)
    requires PlacesOk(w.execs, w.owners, w.place) && c in w.codecs && o !in w.owners && w.codecs[c].exec in w.execs
    ensures var v := Lift(w, c, h, identity, borrow, lucky, o).0; PlacesOk(v.execs, v.owners, v.place)
  {
    var x := w.codecs[c].exec;
    var X, v := w.execs[x], Lift(w, c, h, identity, borrow, lucky, o).0;
    if LiftCheck(X, h, identity, borrow, lucky) == Ok {
      if borrow {
        PlacesSame(w.execs, w.owners, w.place, v.execs, v.owners);
      } else {
        var t := X.entries[h].soul;
        assert Sits(w.execs, w.owners, InTable(x, h), t);
        forall q
          ensures Sits(v.execs, v.owners, q, t) <==> q == InFlight(o)
        {
          assert q != InFlight(o) && Sits(v.execs, v.owners, q, t) ==> Sits(w.execs, w.owners, q, t);
        }
        PlacesMoved(w.execs, w.owners, w.place, v.execs, v.owners, X.entries[h].soul, InFlight(o));
      }
    }
  }

  /** A resource that is somewhere is not destroyed yet. */
  lemma {:induction false} NotDestroyed(w: World, p: Place, s: nat, q: Place)
    requires PlacesOk(w.execs, w.owners, w.place) && DestroyedOk(w.place, w.destroyed) && Sits(w.execs, w.owners, p, s)
    ensures s in w.place && w.place[s] == p && s !in w.destroyed
    ensures DestroyedOk(w.place[s := q], if q == Destroyed then w.destroyed + [s] else w.destroyed)
  {
  }

  lemma {:induction false} LiftTables(w: World, c: Ref, h: nat, identity: nat, borrow: bool, lucky: bool, o: Ref)
    requires TablesOk(w.execs) && c in w.codecs && w.codecs[c].exec in w.execs
    ensures TablesOk(Lift(w, c, h, identity, borrow, lucky, o).0.execs)
  {
  }

  lemma {:induction false} LiftLoans(w: World, c: Ref, h: nat, identity: nat, borrow: bool, lucky: bool, o: Ref)
    requires LoansOk(w.execs, w.owners) && c in w.codecs && o !in w.owners && w.codecs[c].exec in w.execs
    requires LiftCheck(w.execs[w.codecs[c].exec], h, identity, borrow, lucky) == Ok
    ensures var v := Lift(w, c, h, identity, borrow, lucky, o).0; LoansOk(v.execs, v.owners)
  {
    hide LoansOk;
    var v := Lift(w, c, h, identity, borrow, lucky, o).0;
    AddOwnerLoans(w.execs, w.owners, o, v.owners[o], v.execs[w.codecs[c].exec]);
  }

  lemma {:induction false} LiftCounts(w: World, c: Ref, h: nat, identity: nat, borrow: bool, lucky: bool, o: Ref)
    requires CountsOk(w.execs, w.owners) && LoansOk(w.execs, w.owners) && TablesOk(w.execs) && c in w.codecs
    requires o !in w.owners && w.codecs[c].exec in w.execs
    ensures var v := Lift(w, c, h, identity, borrow, lucky, o).0;
              CountsOk(v.execs, v.owners) && LoansOk(v.execs, v.owners) && TablesOk(v.execs)
  {
    hide CountsOk, LoansOk, TablesOk;
    LiftTables(w, c, h, identity, borrow, lucky, o);
    if LiftCheck(w.execs[w.codecs[c].exec], h, identity, borrow, lucky) == Ok {
      var x, v := w.codecs[c].exec, Lift(w, c, h, identity, borrow, lucky, o).0;
      LiftLoans(w, c, h, identity, borrow, lucky, o);
      AddOwnerCounts(w.execs, w.owners, o, v.owners[o], v.execs[x]);
    }
  }

  lemma {:induction false} CodecFacts(w: World, c: Ref)
    requires Inv(w) && c in w.codecs
    ensures w.codecs[c].exec in w.execs && NULL !in w.owners && c != NULL
  {
    hide CountsOk, LoansOk, PlacesOk, DestroyedOk, BorrowsOk;
  }

  lemma {:induction false} LiftChains(w: World, c: Ref, h: nat, identity: nat, borrow: bool, lucky: bool, o: Ref)
    requires ChainsOk(w.execs, w.owners, w.codecs) && c in w.codecs && o !in w.owners && o != NULL
    requires w.codecs[c].exec in w.execs && NULL !in w.owners
    ensures var v := Lift(w, c, h, identity, borrow, lucky, o).0; ChainsOk(v.execs, v.owners, v.codecs)
  {
    hide ChainsOk;
    if LiftCheck(w.execs[w.codecs[c].exec], h, identity, borrow, lucky) == Ok {
      var v := Lift(w, c, h, identity, borrow, lucky, o).0;
      ChainsKept(w.execs, w.owners, w.codecs, v.execs, v.owners);
    }
  }

  lemma {:induction false} LiftDestroyed(w: World, c: Ref, h: nat, identity: nat, borrow: bool, lucky: bool, o: Ref)
    requires PlacesOk(w.execs, w.owners, w.place) && DestroyedOk(w.place, w.destroyed) && c in w.codecs
    requires w.codecs[c].exec in w.execs
    ensures var v := Lift(w, c, h, identity, borrow, lucky, o).0; DestroyedOk(v.place, v.destroyed)
  {
    hide PlacesOk, DestroyedOk;
    var x := w.codecs[c].exec;
    if LiftCheck(w.execs[x], h, identity, borrow, lucky) == Ok && !borrow {
      NotDestroyed(w, InTable(x, h), w.execs[x].entries[h].soul, InFlight(o));
    }
  }

  lemma {:induction false} LiftBorrows(w: World, c: Ref, h: nat, identity: nat, borrow: bool, lucky: bool, o: Ref)
    requires BorrowsOk(w.execs, w.tasks) && c in w.codecs && w.codecs[c].exec in w.execs
    ensures var v := Lift(w, c, h, identity, borrow, lucky, o).0; BorrowsOk(v.execs, v.tasks)
  {
    var x := w.codecs[c].exec;
    if LiftCheck(w.execs[x], h, identity, borrow, lucky) == Ok {
      var v := Lift(w, c, h, identity, borrow, lucky, o).0;
      assert !borrow ==> ScopeAt(w.execs[x].entries, h) == NULL;
      hide BorrowsOk;
      BorrowsKept(w.execs, w.tasks, v.execs);
    }
  }

  lemma {:induction false} LiftKeeps(w: World, c: Ref, h: nat, identity: nat, borrow: bool, lucky: bool, o: Ref)
    requires Inv(w) && c in w.codecs && o !in w.owners && o != NULL
    ensures w.codecs[c].exec in w.execs && Inv(Lift(w, c, h, identity, borrow, lucky, o).0)
  {
    hide CountsOk, LoansOk, TablesOk, ChainsOk, PlacesOk, DestroyedOk, BorrowsOk, Lift;
    CodecFacts(w, c);
    LiftCounts(w, c, h, identity, borrow, lucky, o);
    LiftPlaces(w, c, h, identity, borrow, lucky, o);
    LiftChains(w, c, h, identity, borrow, lucky, o);
    LiftDestroyed(w, c, h, identity, borrow, lucky, o);
    LiftBorrows(w, c, h, identity, borrow, lucky, o);
  }

  // ---------------------------------------------------------------- changes that keep the counters

  /** Table entries change, but no lent one, and new resources are not lent. */
  ghost predicate LoansStay(execs: map<Ref, Exec>, execs': map<Ref, Exec>) {
    && execs'.Keys == execs.Keys
    && (forall x, h :: x in execs && h in execs'[x].entries && execs'[x].entries[h].Resource? ==>
          if h in execs[x].entries && execs[x].entries[h].Resource?
          then execs'[x].entries[h].loans == execs[x].entries[h].loans
            && execs'[x].entries[h].identity == execs[x].entries[h].identity
          else execs'[x].entries[h].loans == 0)
    && (forall x, h :: x in execs && h in execs[x].entries && execs[x].entries[h].Resource? &&
                       execs[x].entries[h].loans != 0 ==>
          h in execs'[x].entries && execs'[x].entries[h].Resource?)
  }

  lemma {:induction false} EntriesLoans(execs: map<Ref, Exec>, owners: map<Ref, Owner>, execs': map<Ref, Exec>)
    requires LoansOk(execs, owners) && LoansStay(execs, execs')
    ensures LoansOk(execs', owners)
  {
    forall o | o in owners && owners[o].borrowed && !owners[o].host
      ensures Lent(execs', owners[o])
    {
      var O := owners[o];
      assert Lent(execs, O) && o in LoansOf(owners, O.exec, O.lender);
      assert execs[O.exec].entries[O.lender].loans != 0;
    }
    forall x, h | x in execs && h in execs'[x].entries && execs'[x].entries[h].Resource?
      ensures execs'[x].entries[h].loans == |LoansOf(owners, x, h)|
    {
      if !(h in execs[x].entries && execs[x].entries[h].Resource?) {
        forall o
          ensures o !in LoansOf(owners, x, h)
        {
          assert o in LoansOf(owners, x, h) ==> Lent(execs, owners[o]);
        }
        assert LoansOf(owners, x, h) == {};
      }
    }
  }

  /** What an owner record keeps while it is lowered or committed. */
  predicate SameLoan(O: Owner, P: Owner) {
    P.exec == O.exec && P.borrowed == O.borrowed && P.host == O.host && P.lender == O.lender && P.identity == O.identity
  }

  lemma {:induction false} UpdateOwner(execs: map<Ref, Exec>, owners: map<Ref, Owner>, o: Ref, O: Owner,
      execs': map<Ref, Exec>)
    requires CountsOk(execs, owners) && LoansOk(execs, owners) && o in owners && SameLoan(owners[o], O)
    requires LoansStay(execs, execs')
    requires forall x :: x in execs ==> execs'[x].owners == execs[x].owners
    ensures CountsOk(execs', owners[o := O]) && LoansOk(execs', owners[o := O])
  {
    hide LoansStay;
    assert execs'.Keys == execs.Keys by {
      SameExecs(execs, execs');
    }
    forall x, h
      ensures OwnersOf(owners[o := O], x) == OwnersOf(owners, x)
      ensures LoansOf(owners[o := O], x, h) == LoansOf(owners, x, h)
    {
      CountKept(owners, o, O, x, h);
    }
    assert CountsOk(execs', owners[o := O]) by {
      hide LoansOk, LoansOf;
      forall x | x in execs'
        ensures execs'[x].owners == |OwnersOf(owners[o := O], x)|
      {
        CountKept(owners, o, O, x, 0);
      }
    }
    assert LoansOk(execs, owners[o := O]);
    EntriesLoans(execs, owners[o := O], execs');
  }

  lemma {:induction false} SameExecs(execs: map<Ref, Exec>, execs': map<Ref, Exec>)
    requires LoansStay(execs, execs')
    ensures execs'.Keys == execs.Keys
  {
  }

  /** An owner record goes; the loan that it held goes with it. */
  lemma {:induction false} RemoveOwner(execs: map<Ref, Exec>, owners: map<Ref, Owner>, o: Ref, X: Exec)
    requires CountsOk(execs, owners) && LoansOk(execs, owners) && o in owners && owners[o].exec in execs
    requires var x := owners[o].exec;
             && X.owners == execs[x].owners - 1 && X.entries.Keys == execs[x].entries.Keys
             && forall h :: h in X.entries ==>
                  if Borrows(owners[o], x, h) then
                    execs[x].entries[h].Resource? && execs[x].entries[h].loans > 0
                    && X.entries[h] == execs[x].entries[h].(loans := execs[x].entries[h].loans - 1)
                  else X.entries[h] == execs[x].entries[h]
    ensures CountsOk(execs[owners[o].exec := X], owners - {o}) && LoansOk(execs[owners[o].exec := X], owners - {o})
  {
    var y := execs[owners[o].exec := X];
    forall x | x in execs
      ensures y[x].owners == |OwnersOf(owners - {o}, x)|
    {
      CountRemoved(owners, o, x, 0);
    }
    forall x, h | x in y && h in y[x].entries && y[x].entries[h].Resource?
      ensures y[x].entries[h].loans == |LoansOf(owners - {o}, x, h)|
    {
      CountRemoved(owners, o, x, h);
    }
    forall p | p in owners - {o} && owners[p].borrowed && !owners[p].host
      ensures Lent(y, owners[p])
    {
      assert Lent(execs, owners[p]);
    }
  }

  // ---------------------------------------------------------------- lowering

  /** The codec has a task of its own instance that is not being destroyed. */
  predicate Scoped(w: World, c: Ref)
    requires c in w.codecs
  {
    var t := w.codecs[c].task;
    t in w.tasks && w.tasks[t].exec == w.codecs[c].exec && !w.tasks[t].destroying
  }

  /** A borrow that is lowered into the instance that defines the resource is passed
      as its representation. */
  predicate Plainly(w: World, o: Ref, defining: bool)
    requires o in w.owners
  {
    w.owners[o].borrowed && defining
  }

  function LowerCheck(w: World, c: Ref, o: Ref, matches: bool, admitted: bool, defining: bool): Status
    requires c in w.codecs && w.codecs[c].exec in w.execs && o in w.owners
  {
    var O, X := w.owners[o], w.execs[w.codecs[c].exec];
    if !matches || O.committed || O.scope != NULL then TypeMismatch
    else if O.host && !admitted then InvalidArgument
    else if Plainly(w, o, defining) then Ok
    else if O.borrowed && !Scoped(w, c) then Trapped
    else if |X.entries| >= X.max then OutOfMemory
    else Ok
  }

  /** Reserves a handle for `o`. */
  ghost function Reserve(w: World, c: Ref, o: Ref, identity: nat): World
    requires c in w.codecs && w.codecs[c].exec in w.execs && o in w.owners
  {
    var C := w.codecs[c];
    var X := w.execs[C.exec];
    w.(execs := w.execs[C.exec := X.(entries := X.entries[X.next := Reservation(o)], next := X.next + 1)],
       owners := w.owners[o := w.owners[o].(reserved := X.next, scope := c, reservedIdentity := identity)],
       codecs := w.codecs[c := C.(chain := [o] + C.chain)])
  }

  /** `lower_resource`, where `matches` is the type check, `admitted` the host's
      permission, and `defining` says that the instance defines the resource. */
  ghost function Lower(w: World, c: Ref, o: Ref, identity: nat, matches: bool, admitted: bool,
      defining: bool): (r: (World, Status))
    requires c in w.codecs && w.codecs[c].exec in w.execs && o in w.owners
  {
    var check := LowerCheck(w, c, o, matches, admitted, defining);
    if check != Ok then (w, check)
    else if Plainly(w, o, defining) then (w, Ok)
    else (Reserve(w, c, o, identity), Ok)
  }

  lemma {:induction false} ReserveCounts(w: World, c: Ref, o: Ref, identity: nat)
    requires CountsOk(w.execs, w.owners) && LoansOk(w.execs, w.owners) && TablesOk(w.execs) && c in w.codecs
    requires w.codecs[c].exec in w.execs && o in w.owners
    ensures var v := Reserve(w, c, o, identity);
              CountsOk(v.execs, v.owners) && LoansOk(v.execs, v.owners) && TablesOk(v.execs)
  {
    var v := Reserve(w, c, o, identity);
    assert TablesOk(v.execs) by {
      hide CountsOk, LoansOk;
    }
    assert w.execs[w.codecs[c].exec].next !in w.execs[w.codecs[c].exec].entries;
    hide CountsOk, LoansOk, TablesOk;
    UpdateOwner(w.execs, w.owners, o, v.owners[o], v.execs);
  }

  lemma {:induction false} ReservePlaces(w: World, c: Ref, o: Ref, identity: nat)
    requires PlacesOk(w.execs, w.owners, w.place) && TablesOk(w.execs) && c in w.codecs && w.codecs[c].exec in w.execs
    requires o in w.owners
    ensures var v := Reserve(w, c, o, identity); PlacesOk(v.execs, v.owners, v.place)
  {
    var v := Reserve(w, c, o, identity);
    assert w.execs[w.codecs[c].exec].next !in w.execs[w.codecs[c].exec].entries;
    hide TablesOk, PlacesOk;
    PlacesSame(w.execs, w.owners, w.place, v.execs, v.owners);
  }

  lemma {:induction false} ReserveLinked(w: World, c: Ref, o: Ref, identity: nat)
    requires Linked(w.execs, w.codecs) && Listed(w.owners, w.codecs) && c in w.codecs && w.codecs[c].exec in w.execs
    requires o in w.owners
    requires NULL !in w.codecs && w.owners[o].scope == NULL
    ensures var v := Reserve(w, c, o, identity); Linked(v.execs, v.codecs) && Listed(v.owners, v.codecs)
  {
    assert o !in w.codecs[c].chain;
    assert NoDuplicates([o] + w.codecs[c].chain);
    hide NoDuplicates;
    var v := Reserve(w, c, o, identity);
    forall d, p | d in v.codecs && p in v.codecs[d].chain
      ensures p in v.owners && v.owners[p].scope == d
    {
      assert d != c || p != o ==> p in w.codecs[d].chain;
    }
  }

  lemma {:induction false} ReserveHeld(w: World, c: Ref, o: Ref, identity: nat)
    requires AllHeld(w.execs, w.owners, w.codecs) && c in w.codecs && w.codecs[c].exec in w.execs && o in w.owners
    requires w.owners[o].scope == NULL && !w.owners[o].committed && identity != 0
    requires w.execs[w.codecs[c].exec].next !in w.execs[w.codecs[c].exec].entries
    ensures var v := Reserve(w, c, o, identity); AllHeld(v.execs, v.owners, v.codecs)
  {
    var v := Reserve(w, c, o, identity);
    forall p | p in v.owners && v.owners[p].scope != NULL
      ensures Held(v.execs, v.owners, v.codecs, p)
    {
      assert p != o ==> Held(w.execs, w.owners, w.codecs, p);
    }
  }

  lemma {:induction false} ReserveBacked(w: World, c: Ref, o: Ref, identity: nat)
    requires AllBacked(w.execs, w.owners, w.codecs) && c in w.codecs && w.codecs[c].exec in w.execs && o in w.owners
    requires NULL !in w.codecs && w.owners[o].scope == NULL
    ensures var v := Reserve(w, c, o, identity); AllBacked(v.execs, v.owners, v.codecs)
  {
    var v := Reserve(w, c, o, identity);
    forall x, h | x in v.execs && h in v.execs[x].entries && v.execs[x].entries[h].Reservation?
      ensures Backed(v.owners, v.codecs, v.execs[x].entries[h].owner, x, h)
    {
      assert (x != w.codecs[c].exec || h != w.execs[x].next) ==>
          Backed(w.owners, w.codecs, w.execs[x].entries[h].owner, x, h);
    }
  }

  lemma {:induction false} ReserveChains(w: World, c: Ref, o: Ref, identity: nat)
    requires ChainsOk(w.execs, w.owners, w.codecs) && TablesOk(w.execs) && c in w.codecs && w.codecs[c].exec in w.execs
    requires o in w.owners
    requires w.owners[o].scope == NULL && !w.owners[o].committed && identity != 0
    ensures var v := Reserve(w, c, o, identity); ChainsOk(v.execs, v.owners, v.codecs)
  {
    assert w.execs[w.codecs[c].exec].next !in w.execs[w.codecs[c].exec].entries;
    hide TablesOk, Linked, Listed, AllHeld, AllBacked;
    ReserveLinked(w, c, o, identity);
    ReserveHeld(w, c, o, identity);
    ReserveBacked(w, c, o, identity);
  }

  lemma {:induction false} ReserveBorrows(w: World, c: Ref, o: Ref, identity: nat)
    requires BorrowsOk(w.execs, w.tasks) && TablesOk(w.execs) && c in w.codecs && w.codecs[c].exec in w.execs
    requires o in w.owners
    ensures var v := Reserve(w, c, o, identity); BorrowsOk(v.execs, v.tasks)
  {
    hide BorrowsOk;
    var v := Reserve(w, c, o, identity);
    assert w.execs[w.codecs[c].exec].next !in w.execs[w.codecs[c].exec].entries;
    BorrowsKept(w.execs, w.tasks, v.execs);
  }

  lemma {:induction false} LowerKeeps(w: World, c: Ref, o: Ref, identity: nat, matches: bool, admitted: bool,
      defining: bool)
    requires Inv(w) && c in w.codecs && o in w.owners && identity != 0
    ensures w.codecs[c].exec in w.execs && Inv(Lower(w, c, o, identity, matches, admitted, defining).0)
  {
    hide CountsOk, LoansOk, TablesOk, ChainsOk, PlacesOk, DestroyedOk, BorrowsOk;
    CodecFacts(w, c);
    if LowerCheck(w, c, o, matches, admitted, defining) == Ok && !Plainly(w, o, defining) {
      ReserveBorrows(w, c, o, identity);
      ReserveCounts(w, c, o, identity);
      ReservePlaces(w, c, o, identity);
      ReserveChains(w, c, o, identity);
    }
  }

  // ---------------------------------------------------------------- committing and rolling back

  /** The first reservation of `c` is what it should be. */
  ghost predicate HeadOk(w: World, c: Ref) {
    && c in w.codecs && w.codecs[c].exec in w.execs && w.codecs[c].chain != []
    && var o := w.codecs[c].chain[0];
    && o in w.owners && w.owners[o].scope == c && !w.owners[o].committed && w.owners[o].reservedIdentity != 0
    && w.owners[o].reserved in w.execs[w.codecs[c].exec].entries
    && w.execs[w.codecs[c].exec].entries[w.owners[o].reserved] == Reservation(o)
  }

  lemma {:induction false} HeadFacts(w: World, c: Ref)
    requires Inv(w) && c in w.codecs && w.codecs[c].chain != []
    ensures HeadOk(w, c) && c != NULL
  {
    var o := w.codecs[c].chain[0];
    assert o in w.codecs[c].chain && Held(w.execs, w.owners, w.codecs, o);
    hide CountsOk, LoansOk, TablesOk, PlacesOk, DestroyedOk, BorrowsOk, NoDuplicates;
  }

  /** What a reservation becomes, for a codec with the given task. */
  function Published(O: Owner, task: Ref): Entry {
    Resource(O.reservedIdentity, O.rep, !O.borrowed, 0, O.soul, if O.borrowed then task else NULL)
  }

  /** The first reservation can be published: a borrow has a task to count it, and
      the counter has room. */
  ghost predicate Publishable(w: World, c: Ref) {
    && HeadOk(w, c)
    && (w.owners[w.codecs[c].chain[0]].borrowed ==> Scoped(w, c) && w.tasks[w.codecs[c].task].borrowed < MAX32)
  }

  /** One turn of the commit loop. */
  ghost function PublishOne(w: World, c: Ref): World
    requires Publishable(w, c)
  {
    var C, o := w.codecs[c], w.codecs[c].chain[0];
    var X, O := w.execs[C.exec], w.owners[o];
    w.(execs := w.execs[C.exec := X.(entries := X.entries[O.reserved := Published(O, C.task)])],
       owners := w.owners[o := O.(scope := NULL, reserved := 0, committed := true)],
       codecs := w.codecs[c := C.(chain := C.chain[1..])],
       tasks := if O.borrowed then w.tasks[C.task := w.tasks[C.task].(borrowed := w.tasks[C.task].borrowed + 1)]
         else w.tasks,
       place := if O.borrowed then w.place else w.place[O.soul := InTable(C.exec, O.reserved)])
  }

  /** One turn of the rollback loop. */
  ghost function UnreserveOne(w: World, c: Ref): World
    requires HeadOk(w, c)
  {
    var C, o := w.codecs[c], w.codecs[c].chain[0];
    var X, O := w.execs[C.exec], w.owners[o];
    w.(execs := w.execs[C.exec := X.(entries := X.entries - {O.reserved})],
       owners := w.owners[o := O.(scope := NULL, reserved := 0)],
       codecs := w.codecs[c := C.(chain := C.chain[1..])])
  }

  lemma {:induction false} PublishCounts(w: World, c: Ref)
    requires CountsOk(w.execs, w.owners) && LoansOk(w.execs, w.owners) && TablesOk(w.execs) && Publishable(w, c)
    ensures var v := PublishOne(w, c); CountsOk(v.execs, v.owners) && LoansOk(v.execs, v.owners) && TablesOk(v.execs)
  {
    var v, o := PublishOne(w, c), w.codecs[c].chain[0];
    assert TablesOk(v.execs) by {
      hide CountsOk, LoansOk;
    }
    hide CountsOk, LoansOk, TablesOk;
    UpdateOwner(w.execs, w.owners, o, v.owners[o], v.execs);
  }

  lemma {:induction false} UnreserveCounts(w: World, c: Ref)
    requires CountsOk(w.execs, w.owners) && LoansOk(w.execs, w.owners) && TablesOk(w.execs) && HeadOk(w, c)
    ensures var v := UnreserveOne(w, c); CountsOk(v.execs, v.owners) && LoansOk(v.execs, v.owners) && TablesOk(v.execs)
  {
    var v, o := UnreserveOne(w, c), w.codecs[c].chain[0];
    assert TablesOk(v.execs) by {
      hide CountsOk, LoansOk;
    }
    hide CountsOk, LoansOk, TablesOk;
    UpdateOwner(w.execs, w.owners, o, v.owners[o], v.execs);
  }

  lemma {:induction false} PublishPlaces(w: World, c: Ref)
    requires PlacesOk(w.execs, w.owners, w.place) && DestroyedOk(w.place, w.destroyed) && Publishable(w, c)
    ensures var v := PublishOne(w, c); PlacesOk(v.execs, v.owners, v.place) && DestroyedOk(v.place, v.destroyed)
  {
    var v, o, x := PublishOne(w, c), w.codecs[c].chain[0], w.codecs[c].exec;
    var O := w.owners[o];
    if O.borrowed {
      hide PlacesOk, DestroyedOk;
      PlacesSame(w.execs, w.owners, w.place, v.execs, v.owners);
    } else {
      var here := InTable(x, O.reserved);
      assert Sits(w.execs, w.owners, InFlight(o), O.soul);
      NotDestroyed(w, InFlight(o), O.soul, here);
      forall q
        ensures Sits(v.execs, v.owners, q, O.soul) <==> q == here
      {
        assert q != here && Sits(v.execs, v.owners, q, O.soul) ==> Sits(w.execs, w.owners, q, O.soul);
      }
      hide PlacesOk, DestroyedOk;
      PlacesMoved(w.execs, w.owners, w.place, v.execs, v.owners, O.soul, here);
    }
  }

  lemma {:induction false} UnreservePlaces(w: World, c: Ref)
    requires PlacesOk(w.execs, w.owners, w.place) && HeadOk(w, c)
    ensures var v := UnreserveOne(w, c); PlacesOk(v.execs, v.owners, v.place)
  {
    hide PlacesOk;
    var v := UnreserveOne(w, c);
    PlacesSame(w.execs, w.owners, w.place, v.execs, v.owners);
  }

  /** The head leaves the chain, and its reservation is gone. */
  ghost predicate HeadGone(w: World, v: World, c: Ref)
    requires HeadOk(w, c)
  {
    var C, o := w.codecs[c], w.codecs[c].chain[0];
    && v.execs.Keys == w.execs.Keys && (forall x :: x in w.execs && x != C.exec ==> v.execs[x] == w.execs[x])
    && (forall h :: h != w.owners[o].reserved ==> (h in v.execs[C.exec].entries <==> h in w.execs[C.exec].entries))
    && (forall h :: h != w.owners[o].reserved && h in v.execs[C.exec].entries ==>
         v.execs[C.exec].entries[h] == w.execs[C.exec].entries[h])
    && (w.owners[o].reserved in v.execs[C.exec].entries ==> v.execs[C.exec].entries[w.owners[o].reserved].Resource?)
    && v.owners.Keys == w.owners.Keys && v.owners[o].scope == NULL
    && (forall p :: p in w.owners && p != o ==> v.owners[p] == w.owners[p])
    && v.codecs.Keys == w.codecs.Keys && (forall d :: d in w.codecs && d != c ==> v.codecs[d] == w.codecs[d])
    && v.codecs[c].exec == C.exec && v.codecs[c].chain == C.chain[1..]
  }

  lemma {:induction false} HeadHeld(w: World, v: World, c: Ref, p: Ref)
    requires HeadOk(w, c) && HeadGone(w, v, c) && p in v.owners && v.owners[p].scope != NULL
    requires Held(w.execs, w.owners, w.codecs, p)
    ensures Held(v.execs, v.owners, v.codecs, p)
  {
    var C := w.codecs[c];
    assert p != C.chain[0];
    assert p in C.chain ==> p in C.chain[1..];
  }

  lemma {:induction false} HeadLinked(w: World, v: World, c: Ref)
    requires Linked(w.execs, w.codecs) && HeadOk(w, c) && HeadGone(w, v, c)
    ensures Linked(v.execs, v.codecs)
  {
  }

  lemma {:induction false} HeadListed(w: World, v: World, c: Ref)
    requires Linked(w.execs, w.codecs) && Listed(w.owners, w.codecs) && HeadOk(w, c) && HeadGone(w, v, c)
    ensures Listed(v.owners, v.codecs)
  {
    var C := w.codecs[c];
    assert C.chain[0] !in C.chain[1..] && forall p :: p in C.chain[1..] ==> p in C.chain;
    hide Linked, NoDuplicates;
    forall d, p | d in v.codecs && p in v.codecs[d].chain
      ensures p in v.owners && v.owners[p].scope == d
    {
      assert p in w.codecs[d].chain && w.owners[p].scope == d;
      assert p == C.chain[0] ==> d == c;
    }
  }

  lemma {:induction false} HeadAllHeld(w: World, v: World, c: Ref)
    requires AllHeld(w.execs, w.owners, w.codecs) && HeadOk(w, c) && HeadGone(w, v, c)
    ensures AllHeld(v.execs, v.owners, v.codecs)
  {
    HeadKeys(w, v, c);
    forall p | p in v.owners && v.owners[p].scope != NULL
      ensures Held(v.execs, v.owners, v.codecs, p)
    {
      assert w.owners[p].scope != NULL && Held(w.execs, w.owners, w.codecs, p);
      hide Held, AllHeld, HeadOk, HeadGone;
      HeadHeld(w, v, c, p);
    }
  }

  lemma {:induction false} HeadAllBacked(w: World, v: World, c: Ref)
    requires AllBacked(w.execs, w.owners, w.codecs) && HeadOk(w, c) && c != NULL && HeadGone(w, v, c)
    ensures AllBacked(v.execs, v.owners, v.codecs)
  {
    hide Backed;
    assert v.execs.Keys == w.execs.Keys;
    hide HeadOk, HeadGone;
    forall x, h | x in v.execs && h in v.execs[x].entries && v.execs[x].entries[h].Reservation?
      ensures Backed(v.owners, v.codecs, v.execs[x].entries[h].owner, x, h)
    {
      HeadBacked(w, v, c, x, h);
    }
  }

  lemma {:induction false} HeadChains(w: World, v: World, c: Ref)
    requires ChainsOk(w.execs, w.owners, w.codecs) && HeadOk(w, c) && c != NULL && HeadGone(w, v, c)
    ensures ChainsOk(v.execs, v.owners, v.codecs)
  {
    hide Linked, Listed, AllHeld, AllBacked, HeadOk, HeadGone;
    HeadLinked(w, v, c);
    HeadListed(w, v, c);
    HeadAllHeld(w, v, c);
    HeadAllBacked(w, v, c);
    HeadKeys(w, v, c);
  }

  lemma {:induction false} HeadKeys(w: World, v: World, c: Ref)
    requires HeadOk(w, c) && HeadGone(w, v, c)
    ensures v.owners.Keys == w.owners.Keys && v.codecs.Keys == w.codecs.Keys
  {
  }

  lemma {:induction false} HeadBacked(w: World, v: World, c: Ref, x: Ref, h: nat)
    requires HeadOk(w, c) && c != NULL && HeadGone(w, v, c) && x in v.execs && h in v.execs[x].entries
    requires v.execs[x].entries[h].Reservation?
    requires h in w.execs[x].entries && w.execs[x].entries[h].Reservation? ==>
               Backed(w.owners, w.codecs, w.execs[x].entries[h].owner, x, h)
    ensures Backed(v.owners, v.codecs, v.execs[x].entries[h].owner, x, h)
  {
  }

  /** A task counts one more handle of its instance. */
  lemma {:induction false} CountMore(execs: map<Ref, Exec>, tasks: map<Ref, Task>, execs': map<Ref, Exec>, t: Ref,
      h: nat)
    requires BorrowsOk(execs, tasks) && t in tasks && execs'.Keys == execs.Keys
    requires forall x, g :: x in execs && !(x == tasks[t].exec && g == h) ==>
               && ScopeAt(execs'[x].entries, g) == ScopeAt(execs[x].entries, g)
               && (ScopeAt(execs[x].entries, g) != NULL ==> execs'[x].entries[g].owned == execs[x].entries[g].owned)
    requires var x := tasks[t].exec;
             x in execs && ScopeAt(execs[x].entries, h) == NULL && ScopeAt(execs'[x].entries, h) == t
               && !execs'[x].entries[h].owned
    ensures BorrowsOk(execs', tasks[t := tasks[t].(borrowed := tasks[t].borrowed + 1)])
  {
    hide HandlesOf, ScopeAt;
    var tasks' := tasks[t := tasks[t].(borrowed := tasks[t].borrowed + 1)];
    forall u | u in tasks
      ensures tasks'[u].borrowed == |HandlesOf(execs'[tasks[u].exec].entries, u)|
    {
      var x := tasks[u].exec;
      if x == tasks[t].exec {
        HandleMoves(execs[x].entries, execs'[x].entries, h, t, u);
      } else {
        HandlesKept(execs[x].entries, execs'[x].entries, u);
      }
    }
    forall x, g | x in execs && ScopeAt(execs'[x].entries, g) != NULL
      ensures !execs'[x].entries[g].owned && ScopeAt(execs'[x].entries, g) in tasks
      ensures tasks[ScopeAt(execs'[x].entries, g)].exec == x
    {
      if x == tasks[t].exec && g == h {
        assert ScopeAt(execs'[x].entries, g) == t;
      }
    }
  }

  /** A task counts one handle less. */
  lemma {:induction false} CountLess(execs: map<Ref, Exec>, tasks: map<Ref, Task>, execs': map<Ref, Exec>, t: Ref,
      h: nat)
    requires BorrowsOk(execs, tasks) && t in tasks && execs'.Keys == execs.Keys
    requires forall x, g :: x in execs && !(x == tasks[t].exec && g == h) ==>
               && ScopeAt(execs'[x].entries, g) == ScopeAt(execs[x].entries, g)
               && (ScopeAt(execs[x].entries, g) != NULL ==> execs'[x].entries[g].owned == execs[x].entries[g].owned)
    requires var x := tasks[t].exec;
               x in execs && ScopeAt(execs[x].entries, h) == t && ScopeAt(execs'[x].entries, h) == NULL
    ensures tasks[t].borrowed > 0 && BorrowsOk(execs', tasks[t := tasks[t].(borrowed := tasks[t].borrowed - 1)])
  {
    hide HandlesOf, ScopeAt;
    HandleMoves(execs'[tasks[t].exec].entries, execs[tasks[t].exec].entries, h, t, t);
    var tasks' := tasks[t := tasks[t].(borrowed := tasks[t].borrowed - 1)];
    forall u | u in tasks
      ensures tasks'[u].borrowed == |HandlesOf(execs'[tasks[u].exec].entries, u)|
    {
      var x := tasks[u].exec;
      if x == tasks[t].exec {
        HandleMoves(execs'[x].entries, execs[x].entries, h, t, u);
      } else {
        HandlesKept(execs[x].entries, execs'[x].entries, u);
      }
    }
  }

  lemma {:induction false} PublishBorrows(w: World, c: Ref)
    requires BorrowsOk(w.execs, w.tasks) && Publishable(w, c)
    ensures var v := PublishOne(w, c); BorrowsOk(v.execs, v.tasks)
  {
    var v, o := PublishOne(w, c), w.codecs[c].chain[0];
    assert NULL !in w.tasks;
    hide BorrowsOk;
    if w.owners[o].borrowed {
      CountMore(w.execs, w.tasks, v.execs, w.codecs[c].task, w.owners[o].reserved);
    } else {
      BorrowsKept(w.execs, w.tasks, v.execs);
    }
  }

  lemma {:induction false} UnreserveBorrows(w: World, c: Ref)
    requires BorrowsOk(w.execs, w.tasks) && HeadOk(w, c)
    ensures var v := UnreserveOne(w, c); BorrowsOk(v.execs, v.tasks)
  {
    hide BorrowsOk;
    BorrowsKept(w.execs, w.tasks, UnreserveOne(w, c).execs);
  }

  lemma {:induction false} PublishKeeps(w: World, c: Ref)
    requires Inv(w) && Publishable(w, c) && c != NULL
    ensures Inv(PublishOne(w, c))
  {
    hide CountsOk, LoansOk, TablesOk, ChainsOk, PlacesOk, DestroyedOk, BorrowsOk;
    PublishCounts(w, c);
    PublishPlaces(w, c);
    PublishBorrows(w, c);
    HeadChains(w, PublishOne(w, c), c);
  }

  lemma {:induction false} UnreserveKeeps(w: World, c: Ref)
    requires Inv(w) && HeadOk(w, c) && c != NULL
    ensures Inv(UnreserveOne(w, c))
  {
    hide CountsOk, LoansOk, TablesOk, ChainsOk, PlacesOk, DestroyedOk, BorrowsOk;
    UnreserveCounts(w, c);
    UnreservePlaces(w, c);
    UnreserveBorrows(w, c);
    HeadChains(w, UnreserveOne(w, c), c);
  }

  // ---------------------------------------------------------------- release

  /** `release_resource`: a lent resource is given back, an owned one that was not
      published is destroyed or goes back to its host. */
  ghost function Release(w: World, o: Ref): (r: (World, Status))
    requires o in w.owners && w.owners[o].exec in w.execs
    requires w.owners[o].borrowed && !w.owners[o].host ==>
               Lent(w.execs, w.owners[o]) && w.execs[w.owners[o].exec].entries[w.owners[o].lender].loans > 0
    requires w.execs[w.owners[o].exec].owners > 0
  {
    var O := w.owners[o];
    var X := w.execs[O.exec];
    if O.scope != NULL then (w, Trapped)
    else
      var e := if O.borrowed && !O.host then
        X.entries[O.lender := X.entries[O.lender].(loans := X.entries[O.lender].loans - 1)] else X.entries;
      var v := w.(execs := w.execs[O.exec := X.(entries := e, owners := X.owners - 1)], owners := w.owners - {o});
      if !Carries(O) then (v, Ok)
      else if O.host then (v.(place := w.place[O.soul := AtHost]), Ok)
      else (v.(place := w.place[O.soul := Destroyed], destroyed := w.destroyed + [O.soul]), Ok)
  }

  /** A borrow always finds its lender, with a loan to give back, and the counter
      is never empty while there is an owner record. */
  lemma {:induction false} ReleaseReady(w: World, o: Ref)
    requires Inv(w) && o in w.owners
    ensures w.owners[o].exec in w.execs && w.execs[w.owners[o].exec].owners > 0 && NULL !in w.owners
    ensures w.owners[o].borrowed && !w.owners[o].host ==>
              Lent(w.execs, w.owners[o]) && w.execs[w.owners[o].exec].entries[w.owners[o].lender].loans > 0
  {
    var O := w.owners[o];
    assert o in OwnersOf(w.owners, O.exec);
    if O.borrowed && !O.host {
      assert Lent(w.execs, O) && o in LoansOf(w.owners, O.exec, O.lender);
    }
  }

  lemma {:induction false} ReleaseCounts(w: World, o: Ref)
    requires Inv(w) && o in w.owners && w.owners[o].exec in w.execs && w.execs[w.owners[o].exec].owners > 0
    requires w.owners[o].scope == NULL
    requires w.owners[o].borrowed && !w.owners[o].host ==>
               Lent(w.execs, w.owners[o]) && w.execs[w.owners[o].exec].entries[w.owners[o].lender].loans > 0
    ensures var v := Release(w, o).0; CountsOk(v.execs, v.owners) && LoansOk(v.execs, v.owners) && TablesOk(v.execs)
  {
    var v := Release(w, o).0;
    assert TablesOk(v.execs) by {
      hide CountsOk, LoansOk, ChainsOk, PlacesOk, DestroyedOk, BorrowsOk;
    }
    hide CountsOk, LoansOk, TablesOk, ChainsOk, PlacesOk, DestroyedOk, BorrowsOk;
    RemoveOwner(w.execs, w.owners, o, v.execs[w.owners[o].exec]);
  }

  lemma {:induction false} ReleasePlaces(w: World, o: Ref)
    requires Inv(w) && o in w.owners && w.owners[o].exec in w.execs && w.execs[w.owners[o].exec].owners > 0
    requires w.owners[o].scope == NULL
    requires w.owners[o].borrowed && !w.owners[o].host ==>
               Lent(w.execs, w.owners[o]) && w.execs[w.owners[o].exec].entries[w.owners[o].lender].loans > 0
    ensures var v := Release(w, o).0; PlacesOk(v.execs, v.owners, v.place) && DestroyedOk(v.place, v.destroyed)
  {
    hide CountsOk, LoansOk, TablesOk, ChainsOk;
    var v, O := Release(w, o).0, w.owners[o];
    if Carries(O) {
      assert Sits(w.execs, w.owners, InFlight(o), O.soul);
      NotDestroyed(w, InFlight(o), O.soul, if O.host then AtHost else Destroyed);
      forall q
        ensures !Sits(v.execs, v.owners, q, O.soul)
      {
        assert Sits(v.execs, v.owners, q, O.soul) ==> Sits(w.execs, w.owners, q, O.soul);
      }
      hide PlacesOk, DestroyedOk;
      PlacesMoved(w.execs, w.owners, w.place, v.execs, v.owners, O.soul, if O.host then AtHost else Destroyed);
    } else {
      hide PlacesOk, DestroyedOk;
      PlacesSame(w.execs, w.owners, w.place, v.execs, v.owners);
    }
  }

  lemma {:induction false} ReleaseBorrows(w: World, o: Ref)
    requires BorrowsOk(w.execs, w.tasks) && o in w.owners && w.owners[o].exec in w.execs
    requires w.execs[w.owners[o].exec].owners > 0 && w.owners[o].scope == NULL
    requires w.owners[o].borrowed && !w.owners[o].host ==>
               Lent(w.execs, w.owners[o]) && w.execs[w.owners[o].exec].entries[w.owners[o].lender].loans > 0
    ensures var v := Release(w, o).0; BorrowsOk(v.execs, v.tasks)
  {
    hide BorrowsOk;
    BorrowsKept(w.execs, w.tasks, Release(w, o).0.execs);
  }

  lemma {:induction false} ReleaseKeeps(w: World, o: Ref)
    requires Inv(w) && o in w.owners
    requires w.owners[o].exec in w.execs && w.execs[w.owners[o].exec].owners > 0
    requires w.owners[o].borrowed && !w.owners[o].host ==>
               Lent(w.execs, w.owners[o]) && w.execs[w.owners[o].exec].entries[w.owners[o].lender].loans > 0
    ensures Inv(Release(w, o).0)
  {
    hide CountsOk, LoansOk, TablesOk, ChainsOk, PlacesOk, DestroyedOk, BorrowsOk;
    ReleaseReady(w, o);
    if w.owners[o].scope == NULL {
      var v := Release(w, o).0;
      ReleaseCounts(w, o);
      ReleasePlaces(w, o);
      ReleaseBorrows(w, o);
      ChainsKept(w.execs, w.owners, w.codecs, v.execs, v.owners);
    }
  }

  // ---------------------------------------------------------------- what guests and hosts do

  /** `resource.new`: a new owned resource, `soul`. */
  ghost function NewOwned(w: World, x: Ref, identity: nat, rep: nat, soul: nat): (r: (World, Status))
    requires x in w.execs
  {
    var X := w.execs[x];
    if identity == 0 then (w, InvalidArgument)
    else if |X.entries| >= X.max then (w, OutOfMemory)
    else (w.(execs :=
      w.execs[x :=
      X.(entries := X.entries[X.next := Resource(identity, rep, true, 0, soul, NULL)], next := X.next + 1)],
             place := w.place[soul := InTable(x, X.next)]), Ok)
  }

  lemma {:induction false} NoNull(w: World)
    requires Inv(w)
    ensures NULL !in w.owners
  {
    hide CountsOk, LoansOk, TablesOk, PlacesOk, DestroyedOk, BorrowsOk;
  }

  lemma {:induction false} NextIsFree(execs: map<Ref, Exec>, x: Ref)
    requires TablesOk(execs) && x in execs
    ensures execs[x].next !in execs[x].entries
  {
  }

  /** A step that changes one table and no owner record. */
  lemma {:induction false} TableStep(execs: map<Ref, Exec>, owners: map<Ref, Owner>, x: Ref, Y: Exec)
    requires CountsOk(execs, owners) && LoansOk(execs, owners) && TablesOk(execs) && x in execs
    requires Y.owners == execs[x].owners
    requires (forall h :: h in Y.entries ==> h < Y.next) && LoansStay(execs, execs[x := Y])
    ensures CountsOk(execs[x := Y], owners) && LoansOk(execs[x := Y], owners) && TablesOk(execs[x := Y])
  {
    assert CountsOk(execs[x := Y], owners) by {
      hide LoansOk, TablesOk, LoansStay;
    }
    assert TablesOk(execs[x := Y]) by {
      hide CountsOk, LoansOk, LoansStay;
    }
    hide CountsOk, LoansOk, TablesOk, LoansStay;
    EntriesLoans(execs, owners, execs[x := Y]);
  }

  lemma {:induction false} BelowNext(execs: map<Ref, Exec>, x: Ref)
    requires TablesOk(execs) && x in execs
    ensures forall h :: h in execs[x].entries ==> h < execs[x].next
  {
  }

  lemma {:induction false} NewPlaces(w: World, x: Ref, identity: nat, rep: nat, soul: nat)
    requires PlacesOk(w.execs, w.owners, w.place) && DestroyedOk(w.place, w.destroyed) && x in w.execs
    requires soul !in w.place && w.execs[x].next !in w.execs[x].entries
    ensures var v := NewOwned(w, x, identity, rep, soul).0;
              PlacesOk(v.execs, v.owners, v.place) && DestroyedOk(v.place, v.destroyed)
  {
    var X, v := w.execs[x], NewOwned(w, x, identity, rep, soul).0;
    if identity != 0 && |X.entries| < X.max {
      var here := InTable(x, X.next);
      forall q
        ensures Sits(v.execs, v.owners, q, soul) <==> q == here
      {
        assert q != here && Sits(v.execs, v.owners, q, soul) ==> Sits(w.execs, w.owners, q, soul);
      }
      assert DestroyedOk(v.place, v.destroyed) by {
        hide PlacesOk;
      }
      hide PlacesOk, DestroyedOk;
      PlacesMoved(w.execs, w.owners, w.place, v.execs, v.owners, soul, here);
    }
  }

  lemma {:induction false} NewCounts(w: World, x: Ref, identity: nat, rep: nat, soul: nat)
    requires CountsOk(w.execs, w.owners) && LoansOk(w.execs, w.owners) && TablesOk(w.execs) && x in w.execs
    ensures var v := NewOwned(w, x, identity, rep, soul).0;
              CountsOk(v.execs, v.owners) && LoansOk(v.execs, v.owners) && TablesOk(v.execs)
  {
    hide CountsOk, LoansOk, TablesOk;
    NextIsFree(w.execs, x);
    BelowNext(w.execs, x);
    var v := NewOwned(w, x, identity, rep, soul).0;
    if v.execs != w.execs {
      TableStep(w.execs, w.owners, x, v.execs[x]);
    }
  }

  lemma {:induction false} NewChains(w: World, x: Ref, identity: nat, rep: nat, soul: nat)
    requires ChainsOk(w.execs, w.owners, w.codecs) && x in w.execs && NULL !in w.owners
    requires w.execs[x].next !in w.execs[x].entries
    ensures var v := NewOwned(w, x, identity, rep, soul).0; ChainsOk(v.execs, v.owners, v.codecs)
  {
    hide ChainsOk;
    var v := NewOwned(w, x, identity, rep, soul).0;
    ChainsKept(w.execs, w.owners, w.codecs, v.execs, v.owners);
  }

  lemma {:induction false} NewBorrows(w: World, x: Ref, identity: nat, rep: nat, soul: nat)
    requires BorrowsOk(w.execs, w.tasks) && x in w.execs && w.execs[x].next !in w.execs[x].entries
    ensures var v := NewOwned(w, x, identity, rep, soul).0; BorrowsOk(v.execs, v.tasks)
  {
    hide BorrowsOk;
    BorrowsKept(w.execs, w.tasks, NewOwned(w, x, identity, rep, soul).0.execs);
  }

  lemma {:induction false} NewKeeps(w: World, x: Ref, identity: nat, rep: nat, soul: nat)
    requires Inv(w) && x in w.execs && soul !in w.place
    ensures Inv(NewOwned(w, x, identity, rep, soul).0)
  {
    hide CountsOk, LoansOk, TablesOk, ChainsOk, PlacesOk, DestroyedOk, BorrowsOk, NewOwned;
    NoNull(w);
    NextIsFree(w.execs, x);
    NewCounts(w, x, identity, rep, soul);
    NewPlaces(w, x, identity, rep, soul);
    NewChains(w, x, identity, rep, soul);
    NewBorrows(w, x, identity, rep, soul);
  }

  /** A component task counts one borrowed handle less. */
  function Uncounted(tasks: map<Ref, Task>, t: Ref): map<Ref, Task> {
    if t in tasks && tasks[t].borrowed > 0 then tasks[t := tasks[t].(borrowed := tasks[t].borrowed - 1)] else tasks
  }

  /** `turbowasm_component_resource_drop`: refused while the handle is lent. */
  ghost function DropHandle(w: World, x: Ref, h: nat, identity: nat): (r: (World, Status))
    requires x in w.execs
  {
    var X := w.execs[x];
    if identity == 0 then (w, InvalidArgument)
    else if !Names(X, h, identity) || X.entries[h].loans != 0 then (w, Trapped)
    else if X.entries[h].scope in w.tasks && w.tasks[X.entries[h].scope].borrowed == 0 then (w, Trapped)
    else
      var v :=
        w.(execs := w.execs[x := X.(entries := X.entries - {h})], tasks := Uncounted(w.tasks, X.entries[h].scope));
      if X.entries[h].owned then
        (v.(place := w.place[X.entries[h].soul := Destroyed], destroyed := w.destroyed + [X.entries[h].soul]), Ok)
        else (v, Ok)
  }

  lemma {:induction false} DropPlaces(w: World, x: Ref, h: nat, identity: nat)
    requires PlacesOk(w.execs, w.owners, w.place) && DestroyedOk(w.place, w.destroyed) && x in w.execs
    ensures var v := DropHandle(w, x, h, identity).0;
              PlacesOk(v.execs, v.owners, v.place) && DestroyedOk(v.place, v.destroyed)
  {
    var X, v := w.execs[x], DropHandle(w, x, h, identity).0;
    if v.execs != w.execs {
      if X.entries[h].owned {
        var t := X.entries[h].soul;
        assert Sits(w.execs, w.owners, InTable(x, h), t);
        NotDestroyed(w, InTable(x, h), t, Destroyed);
        forall q
          ensures !Sits(v.execs, v.owners, q, t)
        {
          assert Sits(v.execs, v.owners, q, t) ==> Sits(w.execs, w.owners, q, t);
        }
        hide PlacesOk, DestroyedOk;
        PlacesMoved(w.execs, w.owners, w.place, v.execs, v.owners, t, Destroyed);
      } else {
        hide PlacesOk, DestroyedOk;
        PlacesSame(w.execs, w.owners, w.place, v.execs, v.owners);
      }
    }
  }

  lemma {:induction false} DropCounts(w: World, x: Ref, h: nat, identity: nat)
    requires CountsOk(w.execs, w.owners) && LoansOk(w.execs, w.owners) && TablesOk(w.execs) && x in w.execs
    ensures var v := DropHandle(w, x, h, identity).0;
              CountsOk(v.execs, v.owners) && LoansOk(v.execs, v.owners) && TablesOk(v.execs)
  {
    hide CountsOk, LoansOk, TablesOk;
    BelowNext(w.execs, x);
    var v := DropHandle(w, x, h, identity).0;
    if v.execs != w.execs {
      TableStep(w.execs, w.owners, x, v.execs[x]);
    }
  }

  lemma {:induction false} DropChains(w: World, x: Ref, h: nat, identity: nat)
    requires ChainsOk(w.execs, w.owners, w.codecs) && x in w.execs && NULL !in w.owners
    ensures var v := DropHandle(w, x, h, identity).0; ChainsOk(v.execs, v.owners, v.codecs)
  {
    hide ChainsOk;
    var v := DropHandle(w, x, h, identity).0;
    ChainsKept(w.execs, w.owners, w.codecs, v.execs, v.owners);
  }

  /** Dropping a borrowed handle takes it off its task's counter, which is never
      empty then. */
  lemma {:induction false} DropBorrows(w: World, x: Ref, h: nat, identity: nat)
    requires BorrowsOk(w.execs, w.tasks) && x in w.execs
    ensures var v := DropHandle(w, x, h, identity).0; BorrowsOk(v.execs, v.tasks)
    ensures identity != 0 && Names(w.execs[x], h, identity) && w.execs[x].entries[h].loans == 0 ==>
              DropHandle(w, x, h, identity).1 == Ok
  {
    var v, X := DropHandle(w, x, h, identity).0, w.execs[x];
    if identity != 0 && Names(X, h, identity) && X.entries[h].loans == 0 {
      var t, execs' := X.entries[h].scope, w.execs[x := X.(entries := X.entries - {h})];
      assert ScopeAt(X.entries, h) == t && NULL !in w.tasks && (t != NULL ==> t in w.tasks && w.tasks[t].exec == x);
      hide BorrowsOk;
      if t != NULL {
        CountLess(w.execs, w.tasks, execs', t, h);
      } else {
        BorrowsKept(w.execs, w.tasks, execs');
      }
    }
  }

  lemma {:induction false} DropKeeps(w: World, x: Ref, h: nat, identity: nat)
    requires Inv(w) && x in w.execs
    ensures Inv(DropHandle(w, x, h, identity).0)
  {
    hide CountsOk, LoansOk, TablesOk, ChainsOk, PlacesOk, DestroyedOk, BorrowsOk, DropHandle;
    NoNull(w);
    DropPlaces(w, x, h, identity);
    DropCounts(w, x, h, identity);
    DropChains(w, x, h, identity);
    DropBorrows(w, x, h, identity);
  }

  // ---------------------------------------------------------------- the end of a task

  /** Some borrowed handle of `t` is lent on. */
  ghost predicate LentOn(entries: map<nat, Entry>, t: Ref) {
    exists h :: h in entries && entries[h].Resource? && entries[h].scope == t && entries[h].loans != 0
  }

  ghost function Without(entries: map<nat, Entry>, t: Ref): map<nat, Entry> {
    map h | h in entries && ScopeAt(entries, h) != t :: entries[h]
  }

  /** `turbowasm_component_resource_scope_clear`, on the table of its instance:
      drops all its borrowed handles, or none if one is lent on. */
  ghost function ClearScope(w: World, t: Ref): (r: (World, Status))
    requires t in w.tasks && w.tasks[t].exec in w.execs
  {
    var x := w.tasks[t].exec;
    var X := w.execs[x];
    var n := |HandlesOf(X.entries, t)|;
    if LentOn(X.entries, t) || n > w.tasks[t].borrowed then (w, Trapped)
    else (w.(execs := w.execs[x := X.(entries := Without(X.entries, t))],
             tasks := w.tasks[t := w.tasks[t].(borrowed := w.tasks[t].borrowed - n)]), Ok)
  }

  lemma {:induction false} TaskFacts(w: World, t: Ref)
    requires Inv(w) && t in w.tasks
    ensures t != NULL && w.tasks[t].exec in w.execs && NULL !in w.owners
    ensures w.tasks[t].borrowed == |HandlesOf(w.execs[w.tasks[t].exec].entries, t)|
  {
    hide CountsOk, LoansOk, TablesOk, PlacesOk, DestroyedOk, HandlesOf;
  }

  /** What is left of the table when the handles of `t` are gone. */
  lemma {:induction false} WithoutFacts(entries: map<nat, Entry>, t: Ref)
    requires t != NULL
    ensures forall h :: ScopeAt(Without(entries, t), h) ==
              if ScopeAt(entries, h) == t then NULL else ScopeAt(entries, h)
    ensures HandlesOf(Without(entries, t), t) == {}
    ensures forall h :: h in entries && (entries[h].Reservation? || entries[h].scope != t) ==> h in Without(entries, t)
    ensures forall u :: u != t && u != NULL ==> HandlesOf(Without(entries, t), u) == HandlesOf(entries, u)
    ensures forall h :: h in Without(entries, t) ==> h in entries && Without(entries, t)[h] == entries[h]
  {
  }

  lemma {:induction false} ClearBorrows(w: World, t: Ref)
    requires BorrowsOk(w.execs, w.tasks) && t in w.tasks && w.tasks[t].exec in w.execs
    ensures var v := ClearScope(w, t).0; BorrowsOk(v.execs, v.tasks)
    ensures ClearScope(w, t).1 == Ok <==> !LentOn(w.execs[w.tasks[t].exec].entries, t)
    ensures ClearScope(w, t).1 == Ok ==> ClearScope(w, t).0.tasks[t].borrowed == 0
  {
    var x, v := w.tasks[t].exec, ClearScope(w, t).0;
    WithoutFacts(w.execs[x].entries, t);
    hide HandlesOf, ScopeAt, Without, LentOn;
    if ClearScope(w, t).1 == Ok {
      forall u | u in v.tasks
        ensures v.tasks[u].exec in v.execs && v.tasks[u].borrowed == |HandlesOf(v.execs[v.tasks[u].exec].entries, u)|
      {
      }
      forall y, h | y in v.execs && ScopeAt(v.execs[y].entries, h) != NULL
        ensures ScopeAt(w.execs[y].entries, h) == ScopeAt(v.execs[y].entries, h)
        ensures v.execs[y].entries[h] == w.execs[y].entries[h]
      {
      }
    }
  }

  lemma {:induction false} ClearRest(w: World, t: Ref)
    requires Inv(w) && t in w.tasks && w.tasks[t].exec in w.execs && t != NULL && NULL !in w.owners
    requires forall x, h :: x in w.execs && ScopeAt(w.execs[x].entries, h) != NULL ==> !w.execs[x].entries[h].owned
    ensures var v := ClearScope(w, t).0;
            && CountsOk(v.execs, v.owners) && LoansOk(v.execs, v.owners) && TablesOk(v.execs)
            && ChainsOk(v.execs, v.owners, v.codecs) && PlacesOk(v.execs, v.owners, v.place)
            && DestroyedOk(v.place, v.destroyed)
  {
    hide CountsOk, LoansOk, TablesOk, ChainsOk, PlacesOk, DestroyedOk, BorrowsOk, ClearScope;
    if ClearScope(w, t).1 == Ok {
      ClearTable(w, t);
      ClearRows(w, t);
      var v := ClearScope(w, t).0;
      ChainsKept(w.execs, w.owners, w.codecs, v.execs, v.owners);
      PlacesSame(w.execs, w.owners, w.place, v.execs, v.owners);
    } else {
      ClearFails(w, t);
    }
  }

  lemma {:induction false} ClearFails(w: World, t: Ref)
    requires t in w.tasks && w.tasks[t].exec in w.execs && ClearScope(w, t).1 != Ok
    ensures ClearScope(w, t).0 == w
  {
  }

  lemma {:induction false} ClearTable(w: World, t: Ref)
    requires CountsOk(w.execs, w.owners) && LoansOk(w.execs, w.owners) && TablesOk(w.execs) && t in w.tasks
    requires w.tasks[t].exec in w.execs && t != NULL
    requires ClearScope(w, t).1 == Ok
    ensures var v := ClearScope(w, t).0; CountsOk(v.execs, v.owners) && LoansOk(v.execs, v.owners) && TablesOk(v.execs)
  {
    hide CountsOk, LoansOk, TablesOk;
    var x, v := w.tasks[t].exec, ClearScope(w, t).0;
    BelowNext(w.execs, x);
    TableStep(w.execs, w.owners, x, v.execs[x]);
  }

  /** Reservations and owned resources are not touched. */
  lemma {:induction false} ClearRows(w: World, t: Ref)
    requires t in w.tasks && w.tasks[t].exec in w.execs && t != NULL && NULL !in w.owners && ClearScope(w, t).1 == Ok
    requires forall x, h :: x in w.execs && ScopeAt(w.execs[x].entries, h) != NULL ==> !w.execs[x].entries[h].owned
    ensures var v := ClearScope(w, t).0;
            && v.owners == w.owners && v.codecs == w.codecs && v.place == w.place && v.destroyed == w.destroyed
            && ReservationsKept(w.execs, w.owners, v.execs, v.owners)
            && (forall q, s :: Sits(v.execs, v.owners, q, s) <==> Sits(w.execs, w.owners, q, s))
  {
    var v := ClearScope(w, t).0;
    forall q, s
      ensures Sits(v.execs, v.owners, q, s) <==> Sits(w.execs, w.owners, q, s)
    {
      assert q.InTable? && Sits(w.execs, w.owners, q, s) ==> ScopeAt(w.execs[q.exec].entries, q.handle) == NULL;
    }
  }

  lemma {:induction false} NoneOwned(w: World)
    requires Inv(w)
    ensures forall x, h :: x in w.execs && ScopeAt(w.execs[x].entries, h) != NULL ==> !w.execs[x].entries[h].owned
  {
    hide CountsOk, LoansOk, TablesOk, ChainsOk, PlacesOk, DestroyedOk, HandlesOf, ScopeAt;
  }

  /** Clearing succeeds exactly if no borrowed handle of `t` is lent on, and then
      `t` holds none. */
  lemma {:induction false} ClearKeeps(w: World, t: Ref)
    requires Inv(w) && t in w.tasks
    ensures w.tasks[t].exec in w.execs && Inv(ClearScope(w, t).0)
    ensures ClearScope(w, t).1 == Ok <==> !LentOn(w.execs[w.tasks[t].exec].entries, t)
    ensures ClearScope(w, t).1 == Ok ==> ClearScope(w, t).0.tasks[t].borrowed == 0
  {
    hide CountsOk, LoansOk, TablesOk, ChainsOk, PlacesOk, DestroyedOk, BorrowsOk, ClearScope, LentOn;
    TaskFacts(w, t);
    NoneOwned(w);
    ClearBorrows(w, t);
    ClearRest(w, t);
  }

  /** A task begins to be destroyed, or is spared. */
  function Mark(w: World, t: Ref, destroying: bool): World
    requires t in w.tasks
  {
    w.(tasks := w.tasks[t := w.tasks[t].(destroying := destroying)])
  }

  lemma {:induction false} MarkKeeps(w: World, t: Ref, destroying: bool)
    requires Inv(w) && t in w.tasks
    ensures Inv(Mark(w, t, destroying))
  {
    hide CountsOk, LoansOk, TablesOk, ChainsOk, PlacesOk, DestroyedOk, HandlesOf, ScopeAt;
  }

  // ---------------------------------------------------------------- resources of the host

  /** `turbowasm_component_exec_resource_adopt` of a host resource into the fresh
      owner record `o`. */
  ghost function Adopt(w: World, x: Ref, identity: nat, rep: nat, borrowed: bool, soul: nat, lucky: bool,
      o: Ref): (r: (World, Status))
    requires x in w.execs
  {
    var X := w.execs[x];
    if X.owners >= X.max || !lucky then (w, OutOfMemory)
    else (w.(execs := w.execs[x := X.(owners := X.owners + 1)],
             owners := w.owners[o := Owner(x, identity, rep, borrowed, 0, false, 0, NULL, 0, true, soul)],
             place := if borrowed then w.place else w.place[soul := InFlight(o)]), Ok)
  }

  lemma {:induction false} AdoptPlaces(w: World, x: Ref, identity: nat, rep: nat, borrowed: bool, soul: nat,
      lucky: bool, o: Ref)
    requires PlacesOk(w.execs, w.owners, w.place) && DestroyedOk(w.place, w.destroyed) && x in w.execs && o !in w.owners
    requires !borrowed && soul in w.place ==> w.place[soul] == AtHost
    ensures var v := Adopt(w, x, identity, rep, borrowed, soul, lucky, o).0;
              PlacesOk(v.execs, v.owners, v.place) && DestroyedOk(v.place, v.destroyed)
  {
    var v := Adopt(w, x, identity, rep, borrowed, soul, lucky, o).0;
    if v.owners != w.owners {
      if borrowed {
        hide PlacesOk, DestroyedOk;
        PlacesSame(w.execs, w.owners, w.place, v.execs, v.owners);
      } else {
        forall q
          ensures Sits(v.execs, v.owners, q, soul) <==> q == InFlight(o)
        {
          assert q != InFlight(o) && Sits(v.execs, v.owners, q, soul) ==> Sits(w.execs, w.owners, q, soul);
        }
        assert DestroyedOk(v.place, v.destroyed);
        hide PlacesOk, DestroyedOk;
        PlacesMoved(w.execs, w.owners, w.place, v.execs, v.owners, soul, InFlight(o));
      }
    }
  }

  lemma {:induction false} AdoptCounts(w: World, x: Ref, identity: nat, rep: nat, borrowed: bool, soul: nat,
      lucky: bool, o: Ref)
    requires CountsOk(w.execs, w.owners) && LoansOk(w.execs, w.owners) && TablesOk(w.execs) && x in w.execs
    requires o !in w.owners
    ensures var v := Adopt(w, x, identity, rep, borrowed, soul, lucky, o).0;
              CountsOk(v.execs, v.owners) && LoansOk(v.execs, v.owners) && TablesOk(v.execs)
  {
    var v := Adopt(w, x, identity, rep, borrowed, soul, lucky, o).0;
    assert TablesOk(v.execs) by {
      hide CountsOk, LoansOk;
    }
    hide CountsOk, LoansOk, TablesOk;
    if w.execs[x].owners < w.execs[x].max && lucky {
      AddOwnerCounts(w.execs, w.owners, o, v.owners[o], v.execs[x]);
      AddOwnerLoans(w.execs, w.owners, o, v.owners[o], v.execs[x]);
    }
  }

  lemma {:induction false} AdoptChains(w: World, x: Ref, identity: nat, rep: nat, borrowed: bool, soul: nat,
      lucky: bool, o: Ref)
    requires ChainsOk(w.execs, w.owners, w.codecs) && x in w.execs && NULL !in w.owners && o !in w.owners && o != NULL
    ensures var v := Adopt(w, x, identity, rep, borrowed, soul, lucky, o).0; ChainsOk(v.execs, v.owners, v.codecs)
  {
    hide ChainsOk;
    var v := Adopt(w, x, identity, rep, borrowed, soul, lucky, o).0;
    ChainsKept(w.execs, w.owners, w.codecs, v.execs, v.owners);
  }

  lemma {:induction false} AdoptBorrows(w: World, x: Ref, identity: nat, rep: nat, borrowed: bool, soul: nat,
      lucky: bool, o: Ref)
    requires BorrowsOk(w.execs, w.tasks) && x in w.execs
    ensures var v := Adopt(w, x, identity, rep, borrowed, soul, lucky, o).0; BorrowsOk(v.execs, v.tasks)
  {
    hide BorrowsOk;
    BorrowsKept(w.execs, w.tasks, Adopt(w, x, identity, rep, borrowed, soul, lucky, o).0.execs);
  }

  lemma {:induction false} AdoptKeeps(w: World, x: Ref, identity: nat, rep: nat, borrowed: bool, soul: nat,
      lucky: bool, o: Ref)
    requires Inv(w) && x in w.execs && o !in w.owners && o != NULL
    requires (!borrowed && soul in w.place ==> w.place[soul] == AtHost)
    ensures Inv(Adopt(w, x, identity, rep, borrowed, soul, lucky, o).0)
  {
    hide CountsOk, LoansOk, TablesOk, ChainsOk, PlacesOk, DestroyedOk, BorrowsOk, Adopt;
    NoNull(w);
    AdoptCounts(w, x, identity, rep, borrowed, soul, lucky, o);
    AdoptPlaces(w, x, identity, rep, borrowed, soul, lucky, o);
    AdoptChains(w, x, identity, rep, borrowed, soul, lucky, o);
    AdoptBorrows(w, x, identity, rep, borrowed, soul, lucky, o);
  }
}
