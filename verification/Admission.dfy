/**
  Admitting resource arguments (src/component_api.c): owned resources are taken,
  borrowed ones lent, all of them or none.
 */
module Admission {
  import opened Common

  type Ref = nat

  /** A host-side resource owner. */
  datatype Owner = Owner(loans: nat, busy: bool)

  /** One resource leaf of an argument tree. */
  datatype Entry = Entry(owner: Ref, own: bool)

  // ---------------------------------------------------------------- what a reservation means

  /** The owners while the leaves `live` are reserved on top of `before`: a loan
      counter counts the borrowing leaves, and a busy flag is an owning leaf. */
  ghost predicate Reserved(before: map<Ref, Owner>, after: map<Ref, Owner>, live: multiset<Entry>) {
    && after.Keys == before.Keys
    && (forall o :: o in before ==>
         after[o] == Owner(before[o].loans + live[Entry(o, false)], before[o].busy || live[Entry(o, true)] > 0))
  }

  /** A resource that is owned is owned once and not borrowed. */
  ghost predicate Exclusive(before: map<Ref, Owner>, live: multiset<Entry>) {
    && (forall e :: e in live ==> e.owner in before)
    && (forall o :: Entry(o, true) in live ==>
         live[Entry(o, true)] == 1 && live[Entry(o, false)] == 0 && before[o] == Owner(0, false))
  }

  ghost predicate Known(owners: map<Ref, Owner>, entries: seq<Entry>) {
    && (forall i :: 0 <= i < |entries| ==> entries[i].owner in owners)
    && Bounded(owners)
  }

  /** Leaf `i` can be admitted, as far as the first `n` leaves are concerned: an
      owned resource is not lent, not busy and occurs once; a borrowed one is not
      busy and its loan counter has room. */
  ghost predicate Admissible(owners: map<Ref, Owner>, entries: seq<Entry>, i: nat, n: nat)
    requires i < |entries| && entries[i].owner in owners
  {
    var e := entries[i];
    && !owners[e.owner].busy
    && (e.own ==> owners[e.owner].loans == 0 && forall j :: 0 <= j < n && j < |entries| && j != i ==>
         entries[j].owner != e.owner)
    && (!e.own ==> owners[e.owner].loans + multiset(entries[..i])[Entry(e.owner, false)] < MAX32)
  }

  ghost predicate AllAdmissible(owners: map<Ref, Owner>, entries: seq<Entry>, n: nat)
    requires Known(owners, entries) && n <= |entries|
  {
    forall i :: 0 <= i < n ==> Admissible(owners, entries, i, n)
  }

  predicate Free(owner: Owner, own: bool) {
    !owner.busy && (if own then owner.loans == 0 else owner.loans != MAX32)
  }

  function Taken(owner: Owner, own: bool): Owner {
    if own then owner.(busy := true) else owner.(loans := owner.loans + 1)
  }

  function Returned(owner: Owner, own: bool): Owner {
    if own then owner.(busy := false) else Owner(if owner.loans > 0 then owner.loans - 1 else 0, owner.busy)
  }

  lemma {:induction false} TakeStep(before: map<Ref, Owner>, now: map<Ref, Owner>, live: multiset<Entry>, e: Entry)
    requires Reserved(before, now, live) && e.owner in before
    ensures Reserved(before, now[e.owner := Taken(now[e.owner], e.own)], live + multiset{e})
  {
  }

  /** Giving back a live leaf leaves the others reserved. */
  lemma {:induction false} ReturnStep(before: map<Ref, Owner>, now: map<Ref, Owner>, live: multiset<Entry>, e: Entry)
    requires Reserved(before, now, live) && Exclusive(before, live) && e in live
    ensures e.owner in now && (!e.own ==> now[e.owner].loans > 0)
    ensures Reserved(before, now[e.owner := Returned(now[e.owner], e.own)], live - multiset{e})
    ensures Exclusive(before, live - multiset{e})
  {
    assert e == Entry(e.owner, e.own);
  }

  /** Forgetting an owned resource leaves the others reserved: nothing else refers to it. */
  lemma {:induction false} ForgetStep(before: map<Ref, Owner>, now: map<Ref, Owner>, live: multiset<Entry>, e: Entry)
    requires Reserved(before, now, live) && Exclusive(before, live) && e in live && e.own
    ensures Reserved(before - {e.owner}, now - {e.owner}, live - multiset{e})
    ensures Exclusive(before - {e.owner}, live - multiset{e})
  {
    var o := e.owner;
    assert e == Entry(o, true) && live[Entry(o, false)] == 0;
    assert Entry(o, false) !in live;
    forall x | x in live - multiset{e}
      ensures x.owner != o && x in live
    {
      assert x == Entry(x.owner, x.own);
    }
  }

  /** The resources that `entries` own. */
  function Owned(entries: seq<Entry>): set<Ref> {
    if entries == [] then {}
    else Owned(entries[..|entries| - 1]) + if entries[|entries| - 1].own then {entries[|entries| - 1].owner} else {}
  }

  /** Earlier leaves of the same resource, seen in the owner itself. */
  lemma {:induction false} EarlierLeaves(before: map<Ref, Owner>, now: map<Ref, Owner>, entries: seq<Entry>, i: nat,
      j: nat)
    requires Known(before, entries) && j < i < |entries| && Reserved(before, now, multiset(entries[..i]))
    requires entries[j].owner == entries[i].owner
    ensures if entries[j].own then now[entries[i].owner].busy else now[entries[i].owner].loans > 0
  {
    assert entries[..i][j] == entries[j] && entries[j] in multiset(entries[..i]);
    assert entries[j] == Entry(entries[i].owner, entries[j].own);
  }

  /** A leaf that is free now extends what was admissible so far. */
  lemma {:induction false} FreeAdmits(before: map<Ref, Owner>, now: map<Ref, Owner>, entries: seq<Entry>, i: nat)
    requires Known(before, entries) && i < |entries| && Reserved(before, now, multiset(entries[..i]))
    requires AllAdmissible(before, entries, i)
    requires Free(now[entries[i].owner], entries[i].own) && now[entries[i].owner].loans <= MAX32
    ensures AllAdmissible(before, entries, i + 1)
  {
    var e := entries[i];
    forall j | 0 <= j < i && entries[j].owner == e.owner
      ensures !entries[j].own && !e.own
    {
      EarlierLeaves(before, now, entries, i, j);
    }
    var n := i + 1;
    forall k | 0 <= k < n
      ensures Admissible(before, entries, k, n)
    {
      assert k < i ==> Admissible(before, entries, k, i);
    }
  }

  /** A leaf that is admissible is free when its turn comes. */
  lemma {:induction false} AdmissibleFree(before: map<Ref, Owner>, now: map<Ref, Owner>, entries: seq<Entry>, i: nat)
    requires Known(before, entries) && i < |entries| && Reserved(before, now, multiset(entries[..i]))
    requires AllAdmissible(before, entries, |entries|)
    ensures Free(now[entries[i].owner], entries[i].own)
  {
    var e, head := entries[i], entries[..i];
    assert Admissible(before, entries, i, |entries|);
    forall j | 0 <= j < i
      ensures entries[j] != Entry(e.owner, true) && (e.own ==> entries[j] != Entry(e.owner, false))
    {
      assert Admissible(before, entries, j, |entries|);
    }
    assert forall j :: 0 <= j < i ==> head[j] == entries[j];
    assert Entry(e.owner, true) !in head && (e.own ==> Entry(e.owner, false) !in head);
  }

  lemma {:induction false} ExclusiveStep(before: map<Ref, Owner>, live: multiset<Entry>, e: Entry)
    requires Exclusive(before, live) && e.owner in before
    requires e.own ==> before[e.owner] == Owner(0, false)
    requires forall x :: x in live && (x.own || e.own) ==> x.owner != e.owner
    ensures Exclusive(before, live + multiset{e})
  {
  }

  lemma {:induction false} PrefixMore(entries: seq<Entry>, n: nat)
    requires n < |entries|
    ensures multiset(entries[..n + 1]) == multiset(entries[..n]) + multiset{entries[n]}
    ensures forall x :: x in multiset(entries[..n]) <==> x in entries[..n]
  {
    assert entries[..n + 1] == entries[..n] + [entries[n]];
  }

  /** Earlier leaves stay admissible for a shorter tree, and differ from the last. */
  lemma {:induction false} Apart(owners: map<Ref, Owner>, entries: seq<Entry>, n: nat)
    requires Known(owners, entries) && n < |entries| && AllAdmissible(owners, entries, n + 1)
    ensures AllAdmissible(owners, entries, n)
    ensures entries[n].own ==> owners[entries[n].owner] == Owner(0, false)
    ensures forall x :: x in entries[..n] && (x.own || entries[n].own) ==> x.owner != entries[n].owner
  {
    assert Admissible(owners, entries, n, n + 1);
    forall i | 0 <= i < n
      ensures Admissible(owners, entries, i, n)
      ensures (entries[i].own || entries[n].own ==> entries[i].owner != entries[n].owner)
    {
      assert Admissible(owners, entries, i, n + 1);
    }
  }

  /** Admissible leaves own what they own exclusively. */
  lemma {:induction false} AdmissibleExclusive(owners: map<Ref, Owner>, entries: seq<Entry>, n: nat)
    requires Known(owners, entries) && n <= |entries| && AllAdmissible(owners, entries, n)
    ensures Exclusive(owners, multiset(entries[..n]))
    decreases n
  {
    if n == 0 {
      assert entries[..0] == [];
    } else {
      hide Exclusive, AllAdmissible, Known;
      Apart(owners, entries, n - 1);
      AdmissibleExclusive(owners, entries, n - 1);
      PrefixMore(entries, n - 1);
      ExclusiveStep(owners, multiset(entries[..n - 1]), entries[n - 1]);
    }
  }

  lemma {:induction false} ReservedMore(base: map<Ref, Owner>, before: map<Ref, Owner>, now: map<Ref, Owner>,
      live: multiset<Entry>, more: multiset<Entry>)
    requires Reserved(base, before, live) && Exclusive(base, live) && Reserved(before, now, more)
    requires Exclusive(before, more)
    requires forall e :: e in more ==> e.owner in before && !before[e.owner].busy
    ensures Reserved(base, now, live + more) && Exclusive(base, live + more)
  {
    forall o | Entry(o, true) in live + more
      ensures (live + more)[Entry(o, true)] == 1 && (live + more)[Entry(o, false)] == 0 && base[o] == Owner(0, false)
    {
      if Entry(o, true) in more {
        assert before[o] == Owner(0, false);
      } else {
        assert before[o].busy;
      }
    }
  }

  lemma {:induction false} AdmissibleIdle(owners: map<Ref, Owner>, entries: seq<Entry>)
    requires Known(owners, entries) && AllAdmissible(owners, entries, |entries|)
    ensures forall e :: e in multiset(entries) ==> e.owner in owners && !owners[e.owner].busy
  {
    forall e | e in entries
      ensures e.owner in owners && !owners[e.owner].busy
    {
      var i :| 0 <= i < |entries| && entries[i] == e;
      assert Admissible(owners, entries, i, |entries|);
    }
  }

  lemma {:induction false} Remaining(entries: seq<Entry>, i: nat, all: multiset<Entry>)
    requires i < |entries| && multiset(entries) <= all
    ensures entries[i] in all - multiset(entries[..i])
    ensures all - multiset(entries[..i]) - multiset{entries[i]} == all - multiset(entries[..i + 1])
  {
    var e, head, tail := entries[i], multiset(entries[..i]), multiset(entries[i + 1..]);
    assert entries[..i + 1] == entries[..i] + [e] && entries == entries[..i + 1] + entries[i + 1..];
    assert multiset(entries[..i + 1]) == head + multiset{e} && multiset(entries) == head + multiset{e} + tail;
  }

  /** What is live once `done` are dealt with and `borrows` set aside. */
  ghost function Left(all: multiset<Entry>, done: seq<Entry>, borrows: seq<Entry>): multiset<Entry> {
    all - multiset(done) + multiset(borrows)
  }

  lemma {:induction false} LeftStep(all: multiset<Entry>, entries: seq<Entry>, i: nat, borrows: seq<Entry>)
    requires i < |entries| && multiset(entries) <= all
    ensures entries[i] in Left(all, entries[..i], borrows)
    ensures Left(all, entries[..i], borrows) - multiset{entries[i]} == Left(all, entries[..i + 1], borrows)
    ensures Left(all, entries[..i], borrows) == Left(all, entries[..i + 1], borrows + [entries[i]])
  {
    Remaining(entries, i, all);
  }

  lemma {:induction false} LeftNone(all: multiset<Entry>, entries: seq<Entry>)
    ensures Left(all, entries[..0], []) == all
  {
    assert entries[..0] == [];
  }

  predicate Bounded(owners: map<Ref, Owner>) {
    forall o :: o in owners ==> owners[o].loans <= MAX32
  }

  lemma {:induction false} NoneReserved(owners: map<Ref, Owner>, entries: seq<Entry>)
    ensures Reserved(owners, owners, multiset(entries[..0]))
  {
    assert entries[..0] == [];
  }

  lemma {:induction false} SameOwners(before: map<Ref, Owner>, now: map<Ref, Owner>, live: multiset<Entry>)
    requires Reserved(before, now, live)
    ensures now.Keys == before.Keys
  {
  }

  lemma {:induction false} Nothing(entries: seq<Entry>, before: map<Ref, Owner>, all: multiset<Entry>)
    ensures before - Owned(entries[..0]) == before && all - multiset(entries[..0]) == all
  {
    assert entries[..0] == [];
  }

  lemma {:induction false} OwnedMore(entries: seq<Entry>, i: nat, before: map<Ref, Owner>)
    requires i < |entries|
    ensures before - Owned(entries[..i + 1]) ==
              if entries[i].own then before - Owned(entries[..i]) - {entries[i].owner} else before - Owned(entries[..i])
  {
    assert entries[..i + 1][..i] == entries[..i] && entries[..i + 1] != [];
  }

  // ---------------------------------------------------------------- the registry

  /** All host-side owners. `base` is what they were before any admission, and
      `live` are the leaves of the admissions that are still alive. */
  class Registry {
    var owners: map<Ref, Owner>
    ghost var base: map<Ref, Owner>
    ghost var live: multiset<Entry>

    ghost predicate Valid()
      reads this
    {
      Reserved(base, owners, live) && Exclusive(base, live) && Bounded(owners)
    }

    /** Reserves leaf after leaf. It succeeds exactly if every leaf is admissible;
        otherwise the first `count` leaves are reserved when it returns. */
    method Reserve(entries: seq<Entry>) returns (status: Status, count: nat)
      requires Known(owners, entries)
      modifies `owners
      ensures count <= |entries| && Reserved(old(owners), owners, multiset(entries[..count]))
      ensures AllAdmissible(old(owners), entries, count)
      ensures status == Ok <==> AllAdmissible(old(owners), entries, |entries|)
      ensures if status == Ok then count == |entries| else status == InvalidArgument
      ensures Bounded(owners)
    {
      hide Admissible, Reserved;
      count := 0;
      NoneReserved(owners, entries);
      while count < |entries|
        invariant 0 <= count <= |entries| && Reserved(old(owners), owners, multiset(entries[..count]))
        invariant AllAdmissible(old(owners), entries, count)
        invariant Bounded(owners)
      {
        var e := entries[count];
        SameOwners(old(owners), owners, multiset(entries[..count]));
        var owner := owners[e.owner];
        if owner.busy || (e.own && owner.loans != 0) || (!e.own && owner.loans == MAX32) {
          if AllAdmissible(old(owners), entries, |entries|) {
            AdmissibleFree(old(owners), owners, entries, count);
          }
          return InvalidArgument, count;
        }
        FreeAdmits(old(owners), owners, entries, count);
        TakeStep(old(owners), owners, multiset(entries[..count]), e);
        assert entries[..count + 1] == entries[..count] + [e];
        if e.own {
          owner := owner.(busy := true);
        } else {
          owner := owner.(loans := owner.loans + 1);
        }
        owners := owners[e.owner := owner];
        count := count + 1;
      }
      return Ok, count;
    }

    /** Gives back a reserved leaf; a committed owning leaf drops its resource. */
    method GiveBack(e: Entry, committed: bool, ghost before: map<Ref, Owner>, ghost all: multiset<Entry>)
        returns (ghost after: map<Ref, Owner>)
      requires Reserved(before, owners, all) && Exclusive(before, all) && e in all
      modifies `owners
      ensures after == if committed && e.own then before - {e.owner} else before
      ensures Reserved(after, owners, all - multiset{e}) && Exclusive(after, all - multiset{e})
    {
      hide Reserved, Exclusive;
      ReturnStep(before, owners, all, e);
      after := before;
      if !e.own {
        var owner := owners[e.owner];
        owners := owners[e.owner := owner.(loans := owner.loans - 1)];
      } else if committed {
        ForgetStep(before, owners, all, e);
        owners := owners - {e.owner};
        after := before - {e.owner};
      } else {
        var owner := owners[e.owner];
        owners := owners[e.owner := owner.(busy := false)];
      }
    }

    /** `admission_destroy`: gives every leaf back. */
    method Undo(entries: seq<Entry>, committed: bool, ghost before: map<Ref, Owner>, ghost all: multiset<Entry>)
        returns (ghost after: map<Ref, Owner>)
      requires Reserved(before, owners, all) && Exclusive(before, all) && multiset(entries) <= all
      modifies `owners
      ensures after == if committed then before - Owned(entries) else before
      ensures Reserved(after, owners, all - multiset(entries)) && Exclusive(after, all - multiset(entries))
    {
      hide Reserved, Exclusive, Owned;
      after := before;
      var i := 0;
      Nothing(entries, before, all);
      while i < |entries|
        invariant 0 <= i <= |entries|
        invariant after == if committed then before - Owned(entries[..i]) else before
        invariant Reserved(after, owners, all - multiset(entries[..i]))
        invariant Exclusive(after, all - multiset(entries[..i]))
      {
        Remaining(entries, i, all);
        OwnedMore(entries, i, before);
        after := GiveBack(entries[i], committed, after, all - multiset(entries[..i]));
        i := i + 1;
      }
      assert entries[..i] == entries;
    }

    /** The whole admission: it reserves everything, or leaves every loan count and
        every busy flag as it was. */
    method Admit(entries: seq<Entry>) returns (status: Status)
      requires Valid() && Known(owners, entries)
      modifies this
      ensures Valid() && base == old(base)
      ensures status == Ok <==> AllAdmissible(old(owners), entries, |entries|)
      ensures status == Ok ==> live == old(live) + multiset(entries)
      ensures status != Ok ==> owners == old(owners) && live == old(live)
    {
      hide Admissible, AllAdmissible, Reserved, Exclusive;
      var count;
      ghost var before := owners;
      status, count := Reserve(entries);
      assert entries[..|entries|] == entries;
      AdmissibleExclusive(before, entries, count);
      if status == Ok {
        AdmissibleIdle(before, entries);
        ReservedMore(base, before, owners, live, multiset(entries));
        live := live + multiset(entries);
      } else {
        ghost var some := multiset(entries[..count]);
        ghost var after := Undo(entries[..count], false, before, some);
        assert some - some == multiset{};
        NothingReserved(before, owners);
      }
    }

    /** `resource_owner_forget`. */
    method Forget(e: Entry)
      requires Valid() && e in live && e.own
      modifies this
      ensures Valid() && base == old(base) - {e.owner} && live == old(live) - multiset{e}
    {
      hide Reserved, Exclusive;
      ForgetStep(base, owners, live, e);
      owners := owners - {e.owner};
      base := base - {e.owner};
      live := live - multiset{e};
    }

    /** `admission_start`: the owned resources of a committed admission now belong
        to the call, and the registry forgets them. The borrowed leaves are left. */
    method Start(entries: seq<Entry>) returns (borrows: seq<Entry>)
      requires Valid() && multiset(entries) <= live
      modifies this
      ensures Valid() && base == old(base) - Owned(entries) && live == Left(old(live), entries, borrows)
      ensures forall e :: e in borrows ==> !e.own
    {
      hide Valid, Owned, Left;
      borrows := [];
      var i := 0;
      Nothing(entries, base, live);
      LeftNone(live, entries);
      while i < |entries|
        invariant 0 <= i <= |entries|
        invariant base == old(base) - Owned(entries[..i])
        invariant live == Left(old(live), entries[..i], borrows)
        invariant Valid()
        invariant forall e :: e in borrows ==> !e.own
      {
        var e := entries[i];
        LeftStep(old(live), entries, i, borrows);
        OwnedMore(entries, i, old(base));
        if e.own {
          Forget(e);
        } else {
          borrows := borrows + [e];
        }
        i := i + 1;
      }
      assert entries[..i] == entries;
    }

    /** The end of an admission: every leaf it still holds is given back once. */
    method Destroy(entries: seq<Entry>, committed: bool)
      requires Valid() && multiset(entries) <= live
      modifies this
      ensures Valid() && live == old(live) - multiset(entries)
      ensures base == if committed then old(base) - Owned(entries) else old(base)
    {
      hide Exclusive, Owned;
      ghost var after := Undo(entries, committed, base, live);
      live, base := live - multiset(entries), after;
      forall o | o in owners
        ensures owners[o].loans <= MAX32
      {
        assert o in old(owners) && owners[o].loans <= old(owners)[o].loans;
      }
    }
  }

  lemma {:induction false} NothingReserved(before: map<Ref, Owner>, now: map<Ref, Owner>)
    requires Reserved(before, now, multiset{})
    ensures now == before
  {
    assert forall o :: o in before ==> now[o] == before[o];
  }
}
