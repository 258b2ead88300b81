/**
  The pairs that a task domain owns (src/component_endpoint_builtin.c): a list
  with a counter, and one reference on the creation instance for every retained
  pair until its second end is closed.
 */
module PairDomain {
  import opened Common

  type Ref = nat

  datatype Pair = Pair(readerClosed: bool, writerClosed: bool, retained: bool)

  predicate Finished(p: Pair) {
    p.readerClosed && p.writerClosed
  }

  ghost predicate Distinct(s: seq<Ref>) {
    forall i, j :: 0 <= i < j < |s| ==> s[i] != s[j]
  }

  /** The pairs that still hold a reference. */
  ghost function Retained(pairs: map<Ref, Pair>): set<Ref> {
    set p | p in pairs && pairs[p].retained
  }

  /** The pairs of `list` that are still open, in their order. */
  ghost function Open(list: seq<Ref>, pairs: map<Ref, Pair>): seq<Ref> {
    if list == [] then []
    else (if list[0] in pairs && !Finished(pairs[list[0]]) then [list[0]] else []) + Open(list[1..], pairs)
  }

  lemma {:induction false} RetainedAdds(pairs: map<Ref, Pair>, p: Ref, P: Pair)
    requires p !in pairs
    ensures |Retained(pairs[p := P])| == |Retained(pairs)| + if P.retained then 1 else 0
  {
    if P.retained {
      assert Retained(pairs[p := P]) == Retained(pairs) + {p};
    } else {
      assert Retained(pairs[p := P]) == Retained(pairs);
    }
  }

  lemma {:induction false} RetainedDrops(pairs: map<Ref, Pair>, p: Ref, P: Pair)
    requires p in pairs
    ensures |Retained(pairs[p := P])| + (if pairs[p].retained then 1 else 0) == |Retained(pairs)| + if P.retained then 1
              else 0
    ensures !pairs[p].retained ==> Retained(pairs - {p}) == Retained(pairs)
  {
    var less := pairs - {p};
    assert pairs == less[p := pairs[p]] && pairs[p := P] == less[p := P];
    RetainedAdds(less, p, pairs[p]);
    RetainedAdds(less, p, P);
  }

  /** Collecting has kept `kept` of `list` and still has to look at `rest`. */
  ghost predicate Collecting(list: seq<Ref>, before: map<Ref, Pair>, kept: seq<Ref>, rest: seq<Ref>, pairs: map<Ref,
      Pair>) {
    && kept + Open(rest, before) == Open(list, before)
    && (forall p :: p in pairs ==> p in before && pairs[p] == before[p])
    && (forall p :: p in before && p !in pairs ==> Finished(before[p]))
    && (forall p :: p in kept ==> p in pairs && !Finished(pairs[p]))
  }

  lemma {:induction false} CollectStarts(list: seq<Ref>, pairs: map<Ref, Pair>)
    ensures Collecting(list, pairs, [], list, pairs)
  {
  }

  lemma {:induction false} CollectTurn(list: seq<Ref>, before: map<Ref, Pair>, kept: seq<Ref>, rest: seq<Ref>,
      pairs: map<Ref, Pair>)
    requires Collecting(list, before, kept, rest, pairs) && rest != [] && rest[0] in pairs
    ensures !Finished(pairs[rest[0]]) ==> Collecting(list, before, kept + [rest[0]], rest[1..], pairs)
    ensures Finished(pairs[rest[0]]) ==> Collecting(list, before, kept, rest[1..], pairs - {rest[0]})
  {
    var p, more := rest[0], Open(rest[1..], before);
    assert Open(rest, before) == (if !Finished(before[p]) then [p] else []) + more;
    assert kept + ([p] + more) == (kept + [p]) + more;
    assert kept + ([] + more) == kept + more;
  }

  lemma {:induction false} CollectEnds(list: seq<Ref>, before: map<Ref, Pair>, kept: seq<Ref>, pairs: map<Ref, Pair>)
    requires Collecting(list, before, kept, [], pairs) && forall p :: p in pairs ==> p in kept
    ensures kept == Open(list, before)
    ensures forall p :: p in before ==> (p in pairs <==> !Finished(before[p]))
    ensures forall p :: p in pairs ==> p in before && pairs[p] == before[p]
  {
    assert kept + [] == kept;
  }

  class Domain {
    var list: seq<Ref>
    var count: nat
    var pairs: map<Ref, Pair>
    var refs: nat
    const max: nat
    ghost const others: nat

    /** The counter is the length of the list, the list holds the pairs that are
        allocated, a retained pair has an open end, and the instance is referenced
        once for every retained pair besides the `others`. */
    ghost predicate Valid()
      reads this
    {
      && count == |list| && Distinct(list) && (forall p :: p in list <==> p in pairs)
      && (forall p :: p in pairs && pairs[p].retained ==> !Finished(pairs[p]))
      && refs == others + |Retained(pairs)|
    }

    /** An end is closed; `pair_closed` is called, which releases the instance
        exactly if it was the second end of a retained pair. */
    method CloseEnd(p: Ref, reading: bool)
      requires Valid() && p in pairs && (if reading then !pairs[p].readerClosed else !pairs[p].writerClosed)
      modifies `pairs, `refs
      ensures Valid() && pairs.Keys == old(pairs).Keys && forall q :: q in pairs && q != p ==> pairs[q] == old(pairs)[q]
      ensures var P := old(pairs[p]);
                pairs[p].readerClosed == (P.readerClosed || reading)
                && pairs[p].writerClosed == (P.writerClosed || !reading)
      ensures refs == old(refs) - if old(pairs[p]).retained && Finished(pairs[p]) then 1 else 0
    {
      var P := pairs[p];
      if reading {
        P := P.(readerClosed := true);
      } else {
        P := P.(writerClosed := true);
      }
      RetainedDrops(pairs, p, P.(retained := P.retained && !Finished(P)));
      if P.retained && P.readerClosed && P.writerClosed {
        P := P.(retained := false);
        refs := refs - 1;
      }
      pairs := pairs[p := P];
    }

    method Unlink(kept: seq<Ref>, p: Ref, rest: seq<Ref>)
      requires Valid() && list == kept + [p] + rest && p in pairs && Finished(pairs[p])
      modifies `list, `count, `pairs
      ensures Valid() && list == kept + rest && pairs == old(pairs) - {p}
    {
      RetainedDrops(pairs, p, pairs[p]);
      Unlinked(list, kept, p, rest);
      hide Distinct, Retained;
      list := kept + rest;
      count := count - 1;
      pairs := pairs - {p};
    }

    /** `turbowasm_component_endpoint_domain_collect`: exactly the finished pairs go. */
    method Collect()
      requires Valid()
      modifies `list, `count, `pairs
      ensures Valid() && list == Open(old(list), old(pairs))
      ensures forall p :: p in old(pairs) ==> (p in pairs <==> !Finished(old(pairs)[p]))
      ensures forall p :: p in pairs ==> p in old(pairs) && pairs[p] == old(pairs)[p]
    {
      hide Distinct, Retained, Open, Collecting;
      var kept, rest := [], list;
      CollectStarts(list, pairs);
      while rest != []
        invariant list == kept + rest && Valid() && Collecting(old(list), old(pairs), kept, rest, pairs)
        decreases |rest|
      {
        var p := rest[0];
        assert p in list && rest == [p] + rest[1..] && list == kept + [p] + rest[1..];
        CollectTurn(old(list), old(pairs), kept, rest, pairs);
        if Finished(pairs[p]) {
          Unlink(kept, p, rest[1..]);
        } else {
          kept := kept + [p];
        }
        rest := rest[1..];
      }
      CollectEnds(old(list), old(pairs), kept, pairs);
    }

    /** `turbowasm_component_endpoint_domain_pair_open`: a failed open leaves the
        references as they were. `answer` is that of opening the ends. */
    method PairOpen(p: Ref, tracked: bool, retainable: bool, lucky: bool, answer: Status) returns (status: Status)
      requires Valid() && p !in pairs
      modifies this
      ensures Valid()
      ensures status == Ok ==> list == [p] + Open(old(list), old(pairs)) && refs == old(refs) + if tracked then 1 else 0
      ensures status != Ok ==> list == Open(old(list), old(pairs)) && refs == old(refs)
      ensures status == Ok <==> |Open(old(list), old(pairs))| < max && (tracked ==> retainable) && lucky && answer == Ok
    {
      hide Retained, Open;
      Collect();
      if count >= max {
        return OutOfMemory;
      }
      if tracked {
        if !retainable {
          return InvalidArgument;
        }
        refs := refs + 1;
      }
      status := if lucky then answer else OutOfMemory;
      if status != Ok {
        if tracked {
          refs := refs - 1;
        }
        return;
      }
      var P := Pair(false, false, tracked);
      RetainedAdds(pairs, p, P);
      pairs := pairs[p := P];
      list := [p] + list;
      count := count + 1;
    }
  }

  lemma {:induction false} Unlinked(list: seq<Ref>, kept: seq<Ref>, p: Ref, rest: seq<Ref>)
    requires list == kept + [p] + rest && Distinct(list)
    ensures Distinct(kept + rest) && forall q :: q in kept + rest <==> q in list && q != p
  {
    assert list[|kept|] == p;
    assert forall i :: 0 <= i < |kept| ==> kept[i] == list[i];
    assert forall i :: 0 <= i < |rest| ==> rest[i] == list[|kept| + 1 + i];
  }
}
