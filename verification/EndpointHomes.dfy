/**
  The pairs that ends were created in: a pair lets its creation instance go
  exactly when its second end closes (src/component_endpoint_builtin.c).
 */
module EndpointHomes {
  import opened Common
  import opened AsyncState
  import opened EndpointModel
  import opened EndpointOwnership

  /** The two ends of a creation pair know each other, and are still linked as
      long as both are open. */
  ghost predicate HomeOk(ends: map<Ref, End>, homes: map<Ref, Home>, e: Ref)
    requires e in homes && e in ends
  {
    var H := homes[e];
    && H.other in homes && H.other in ends && H.other != e && homes[H.other] == Home(H.pair, e, H.tracked)
    && (H.pair == e || H.pair == H.other)
    && ends[e].readable != ends[H.other].readable && ends[e].ty == ends[H.other].ty
    && (!ends[e].closed && !ends[H.other].closed ==> ends[e].peer == H.other)
  }

  ghost predicate HomesOk(ends: map<Ref, End>, homes: map<Ref, Home>) {
    && (forall e :: e in homes <==> e in ends && ends[e].initialized)
    && (forall e :: e in homes ==> HomeOk(ends, homes, e))
  }

  /** `r` is a creation pair that keeps an instance alive, and both its ends are closed. */
  ghost predicate Finished(ends: map<Ref, End>, homes: map<Ref, Home>, r: Ref) {
    && r in homes && homes[r].tracked && homes[r].pair == r
    && r in ends && ends[r].closed && homes[r].other in ends && ends[homes[r].other].closed
  }

  /** The finished pairs are released, once each, except those of ends in `todo`
      whose closed notification is still to come. */
  ghost predicate ReleasedOk(h: Homes, ends: map<Ref, End>, todo: set<Ref>) {
    && !h.stale && NoDuplicates(h.released)
    && (forall r :: r in h.released <==> Finished(ends, h.homes, r) && r !in todo && h.homes[r].other !in todo)
  }

  ghost predicate HomeInv(w: World) {
    HomesOk(w.p.ends, w.h.homes) && ReleasedOk(w.h, w.p.ends, {})
  }

  /** From `p` to `q` exactly the open ends `gone` were closed, and links changed
      only for their peers. */
  predicate ShiftOne(E: End, F: End, gone: set<Ref>, isGone: bool) {
    && F.initialized == E.initialized && F.readable == E.readable && F.ty == E.ty
    && (isGone ==> E.initialized && !E.closed && F.closed)
    && (!isGone ==> F.closed == E.closed && (F.peer == E.peer || E.peer in gone))
  }

  ghost predicate Shift(p: map<Ref, End>, q: map<Ref, End>, gone: set<Ref>) {
    && q.Keys == p.Keys && gone <= p.Keys
    && (forall x :: x in p ==> ShiftOne(p[x], q[x], gone, x in gone))
  }

  lemma {:induction false} ShiftHomes(p: map<Ref, End>, q: map<Ref, End>, homes: map<Ref, Home>, gone: set<Ref>)
    requires HomesOk(p, homes) && Shift(p, q, gone)
    ensures HomesOk(q, homes)
  {
    forall e | e in homes
      ensures e in q && HomeOk(q, homes, e)
    {
      assert HomeOk(p, homes, e);
      var o := homes[e].other;
      assert ShiftOne(p[e], q[e], gone, e in gone) && ShiftOne(p[o], q[o], gone, o in gone);
    }
    forall e
      ensures e in homes <==> e in q && q[e].initialized
    {
      assert e in p ==> ShiftOne(p[e], q[e], gone, e in gone);
    }
  }

  lemma {:induction false} ShiftReleased(p: map<Ref, End>, q: map<Ref, End>, h: Homes, gone: set<Ref>)
    requires ReleasedOk(h, p, {}) && Shift(p, q, gone)
    ensures ReleasedOk(h, q, gone)
  {
    forall r
      ensures r in h.released <==> Finished(q, h.homes, r) && r !in gone && h.homes[r].other !in gone
    {
      assert r in p ==> ShiftOne(p[r], q[r], gone, r in gone);
      if r in h.homes && h.homes[r].other in p {
        var o := h.homes[r].other;
        assert ShiftOne(p[o], q[o], gone, o in gone);
      }
    }
  }

  /** A closed notification releases the pair if it is the second one, and never
      reaches a pair that was already released. */
  lemma {:induction false} NoteKeeps(h: Homes, ends: map<Ref, End>, e: Ref, todo: set<Ref>)
    requires HomesOk(ends, h.homes) && e in h.homes && e in ends && ends[e].closed && e !in todo
    requires h.homes[e].other !in todo
    requires ReleasedOk(h, ends, todo + {e})
    ensures ReleasedOk(Note(h, ends, e), ends, todo) && Note(h, ends, e).homes == h.homes
  {
    assert HomeOk(ends, h.homes, e);
    var o, k := h.homes[e].other, Note(h, ends, e);
    forall r
      ensures r in k.released <==> Finished(ends, h.homes, r) && r !in todo && h.homes[r].other !in todo
    {
      if r in h.homes && r in ends {
        assert HomeOk(ends, h.homes, r);
      }
    }
    assert h.homes[e].tracked ==> h.homes[e].pair !in h.released;
  }
}
