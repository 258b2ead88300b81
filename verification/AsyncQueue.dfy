/**
  The queue of asynchronous calls and its driver (src/component_exec_async.c):
  an intrusive list with head, tail and count that changes while a call is
  running, and that gives every call its turn.
 */
module AsyncQueue {
  import opened Common

  type Ref = nat
  const NULL: Ref := 0

  predicate Distinct(s: seq<Ref>) {
    forall i, j :: 0 <= i < j < |s| ==> s[i] != s[j]
  }

  /** The calls that are not in `gone`, in their order. */
  function Without(s: seq<Ref>, gone: set<Ref>): (r: seq<Ref>)
    ensures forall x :: x in r <==> x in s && x !in gone
    ensures |r| <= |s|
  {
    if s == [] then [] else (if s[0] in gone then [] else [s[0]]) + Without(s[1..], gone)
  }

  // ---------------------------------------------------------------- fairness

  /** What may happen to the queue while a call runs, or between polls. */
  datatype Event = Lowered(call: Ref) | Collected(gone: set<Ref>)

  function After(s: seq<Ref>, events: seq<Event>): (r: seq<Ref>)
    decreases |events|
  {
    if events == [] then s
    else
      match events[0]
      case Lowered(call) => After(s + [call], events[1..])
      case Collected(gone) => After(Without(s, gone), events[1..])
  }

  /** One turn: the first call runs while others come and go, then queues again. */
  function Turn(s: seq<Ref>, events: seq<Event>): (r: seq<Ref>) {
    if s == [] then After(s, events) else After(s[1..], events) + [s[0]]
  }

  function Turns(s: seq<Ref>, turns: seq<seq<Event>>): (r: seq<Ref>)
    decreases |turns|
  {
    if turns == [] then s else Turns(Turn(s, turns[0]), turns[1..])
  }

  /** `x` is among the first `k + 1` calls. */
  predicate Within(s: seq<Ref>, x: Ref, k: nat) {
    exists i :: 0 <= i <= k && i < |s| && s[i] == x
  }

  lemma {:induction false} WithoutKeeps(s: seq<Ref>, gone: set<Ref>, x: Ref, i: nat)
    requires i < |s| && s[i] == x && x !in gone
    ensures Within(Without(s, gone), x, i)
  {
    var r := Without(s, gone);
    if i == 0 {
      assert r[0] == x;
    } else {
      WithoutKeeps(s[1..], gone, x, i - 1);
      var j :| 0 <= j <= i - 1 && j < |Without(s[1..], gone)| && Without(s[1..], gone)[j] == x;
      if s[0] in gone {
        assert r[j] == x;
      } else {
        assert r[j + 1] == x;
      }
    }
  }

  predicate Spared(events: seq<Event>, x: Ref) {
    forall i :: 0 <= i < |events| && events[i].Collected? ==> x !in events[i].gone
  }

  /** Calls only ever move forward in the queue. */
  lemma {:induction false} AfterKeeps(s: seq<Ref>, events: seq<Event>, x: Ref, k: nat)
    requires Within(s, x, k) && Spared(events, x)
    ensures Within(After(s, events), x, k)
    decreases |events|
  {
    if events != [] {
      var i :| 0 <= i <= k && i < |s| && s[i] == x;
      assert Spared(events[1..], x);
      match events[0]
      case Lowered(call) =>
        assert (s + [call])[i] == x;
        AfterKeeps(s + [call], events[1..], x, k);
      case Collected(gone) =>
        WithoutKeeps(s, gone, x, i);
        AfterKeeps(Without(s, gone), events[1..], x, k);
    }
  }

  /** A turn brings every other call one place nearer to the front. */
  lemma {:induction false} TurnAdvances(s: seq<Ref>, events: seq<Event>, x: Ref, k: nat)
    requires k > 0 && Within(s, x, k) && s[0] != x && Spared(events, x)
    ensures Within(Turn(s, events), x, k - 1)
  {
    var i :| 0 <= i <= k && i < |s| && s[i] == x;
    assert s[1..][i - 1] == x;
    AfterKeeps(s[1..], events, x, k - 1);
    var j :| 0 <= j <= k - 1 && j < |After(s[1..], events)| && After(s[1..], events)[j] == x;
    assert Turn(s, events)[j] == x;
  }

  /** A call at position `k` gets its turn after at most `k` other turns, whatever
      calls are lowered or collected meanwhile, unless it is collected itself. */
  lemma {:induction false} TurnComes(s: seq<Ref>, turns: seq<seq<Event>>, x: Ref, k: nat)
    requires Within(s, x, k) && |turns| == k && forall i :: 0 <= i < |turns| ==> Spared(turns[i], x)
    ensures exists j :: 0 <= j <= k && Turns(s, turns[..j]) != [] && Turns(s, turns[..j])[0] == x
    decreases k
  {
    if s[0] == x {
      assert Turns(s, turns[..0]) == s;
    } else if k == 0 {
      assert false;
    } else {
      TurnAdvances(s, turns[0], x, k - 1 + 1);
      assert forall i :: 0 <= i < |turns[1..]| ==> Spared(turns[1..][i], x);
      TurnComes(Turn(s, turns[0]), turns[1..], x, k - 1);
      var j :| 0 <= j <= k - 1 && Turns(Turn(s, turns[0]), turns[1..][..j]) != []
        && Turns(Turn(s, turns[0]), turns[1..][..j])[0] == x;
      assert turns[..j + 1][0] == turns[0] && turns[..j + 1][1..] == turns[1..][..j];
      assert Turns(s, turns[..j + 1]) == Turns(Turn(s, turns[0]), turns[1..][..j]);
    }
  }

  // ---------------------------------------------------------------- one poll

  /** A turn that ends the poll. */
  predicate Fails(outcome: Status) {
    outcome != Ok && outcome != Yielded
  }

  /** How many turns a poll takes: `limit` of them, but none from an empty queue
      and none after one that fails. */
  function Driven(s: seq<Ref>, turns: seq<seq<Event>>, outcomes: seq<Status>, limit: nat): (n: nat)
    requires limit <= |turns| && limit <= |outcomes|
    ensures n <= limit
    decreases limit
  {
    if limit == 0 || s == [] then 0
    else if Fails(outcomes[0]) then 1
    else 1 + Driven(Turn(s, turns[0]), turns[1..], outcomes[1..], limit - 1)
  }

  /** A call that is not collected stays queued. */
  lemma {:induction false} TurnKeeps(s: seq<Ref>, events: seq<Event>, x: Ref)
    requires x in s && Spared(events, x)
    ensures x in Turn(s, events)
  {
    if s[0] != x {
      var i :| 0 <= i < |s| && s[i] == x;
      assert s[1..][i - 1] == x;
      AfterKeeps(s[1..], events, x, |s|);
    }
  }

  /** A poll takes at least `m` turns if the call `x` stays queued so long and no
      turn before the last of them fails. */
  lemma {:induction false} DrivenAtLeast(s: seq<Ref>, turns: seq<seq<Event>>, outcomes: seq<Status>, limit: nat,
      x: Ref, m: nat)
    requires m <= limit <= |turns| && limit <= |outcomes| && x in s
    requires forall i :: 0 <= i < m - 1 ==> Spared(turns[i], x) && !Fails(outcomes[i])
    ensures m <= Driven(s, turns, outcomes, limit)
    decreases m
  {
    if m > 1 {
      assert Spared(turns[0], x) && !Fails(outcomes[0]);
      TurnKeeps(s, turns[0], x);
      assert forall i :: 0 <= i < m - 2 ==> turns[1..][i] == turns[i + 1] && outcomes[1..][i] == outcomes[i + 1];
      DrivenAtLeast(Turn(s, turns[0]), turns[1..], outcomes[1..], limit - 1, x, m - 1);
    }
  }

  /** A call at position `k` is run by one poll of more than `k` quanta, unless it
      is collected first or an earlier turn fails. */
  lemma {:induction false} PollReaches(s: seq<Ref>, turns: seq<seq<Event>>, outcomes: seq<Status>, x: Ref, k: nat)
    requires |turns| == |outcomes| && k < |turns| && k < |s| && s[k] == x
    requires forall i :: 0 <= i < k ==> Spared(turns[i], x) && !Fails(outcomes[i])
    ensures exists j :: 0 <= j <= k && j < Driven(s, turns, outcomes, Min(|s|, |turns|)) &&
              Turns(s, turns[..j]) != [] && Turns(s, turns[..j])[0] == x
  {
    assert forall i :: 0 <= i < k ==> turns[..k][i] == turns[i];
    TurnComes(s, turns[..k], x, k);
    var j :| 0 <= j <= k && Turns(s, turns[..k][..j]) != [] && Turns(s, turns[..k][..j])[0] == x;
    assert turns[..k][..j] == turns[..j];
    DrivenAtLeast(s, turns, outcomes, Min(|s|, |turns|), x, j + 1);
  }

  // ---------------------------------------------------------------- the list

  lemma {:induction false} WithoutFirst(s: seq<Ref>, gone: set<Ref>)
    requires s != []
    ensures Without(s, gone) == (if s[0] in gone then [] else [s[0]]) + Without(s[1..], gone)
    ensures s[0] in gone ==> Without(s, gone) == Without(s[1..], gone)
  {
  }

  lemma {:induction false} WithoutNothing(gone: set<Ref>)
    ensures Without([], gone) == []
  {
  }

  lemma {:induction false} NothingLeft(s: seq<Ref>, kept: seq<Ref>, rest: seq<Ref>)
    requires s == kept + rest && First(rest) == NULL && NULL !in s
    ensures rest == [] && s == kept
  {
    assert forall x :: x in rest ==> x in s;
  }

  function First(s: seq<Ref>): Ref {
    if s == [] then NULL else s[0]
  }

  function Last(s: seq<Ref>): Ref {
    if s == [] then NULL else s[|s| - 1]
  }

  /** Following `next` runs through `s` and then reaches `end`. */
  ghost predicate Chain(next: map<Ref, Ref>, s: seq<Ref>, end: Ref)
    decreases |s|
  {
    s == [] || (s[0] in next && next[s[0]] == (if |s| == 1 then end else s[1]) && Chain(next, s[1..], end))
  }

  ghost predicate Linked(next: map<Ref, Ref>, s: seq<Ref>, head: Ref, tail: Ref) {
    head == First(s) && tail == Last(s) && NULL !in s && Distinct(s) && Chain(next, s, NULL)
  }

  lemma {:induction false} ChainSplit(next: map<Ref, Ref>, a: seq<Ref>, b: seq<Ref>, end: Ref)
    ensures Chain(next, a + b, end) <==> Chain(next, a, if b == [] then end else b[0]) && Chain(next, b, end)
    decreases |a|
  {
    if a == [] {
      assert a + b == b;
    } else {
      ChainSplit(next, a[1..], b, end);
      assert (a + b)[1..] == a[1..] + b;
    }
  }

  /** Only the last call of a chain decides where it ends. */
  lemma {:induction false} ChainRedirect(next: map<Ref, Ref>, s: seq<Ref>, end: Ref, other: Ref)
    requires s != [] && Chain(next, s, end) && Distinct(s)
    ensures Chain(next[Last(s) := other], s, other)
    decreases |s|
  {
    if |s| > 1 {
      ChainRedirect(next, s[1..], end, other);
    }
  }

  lemma {:induction false} ChainFrame(next: map<Ref, Ref>, s: seq<Ref>, end: Ref, x: Ref, y: Ref)
    requires Chain(next, s, end) && x !in s
    ensures Chain(next[x := y], s, end)
    decreases |s|
  {
    if s != [] {
      ChainFrame(next, s[1..], end, x, y);
    }
  }

  lemma {:induction false} AppendLinked(next: map<Ref, Ref>, s: seq<Ref>, head: Ref, tail: Ref, x: Ref)
    requires Linked(next, s, head, tail) && x != NULL && x !in s
    ensures Linked(if tail != NULL then next[x := NULL][tail := x]
              else next[x := NULL], s + [x], if tail != NULL then head else x, x)
  {
    ChainFrame(next, s, NULL, x, NULL);
    if s == [] {
      assert s + [x] == [x];
    } else {
      ChainRedirect(next[x := NULL], s, NULL, x);
      ChainSplit(next[x := NULL][tail := x], s, [x], NULL);
    }
  }

  lemma {:induction false} PopLinked(next: map<Ref, Ref>, s: seq<Ref>, head: Ref, tail: Ref)
    requires Linked(next, s, head, tail) && s != []
    ensures head == s[0] && head in next
    ensures Linked(next[head := NULL], s[1..], next[head], if next[head] == NULL then NULL else tail)
  {
    assert |s| > 1 ==> s[1] in s;
    ChainFrame(next, s[1..], NULL, head, NULL);
  }

  lemma {:induction false} HeadMeans(next: map<Ref, Ref>, s: seq<Ref>, head: Ref, tail: Ref)
    requires Linked(next, s, head, tail)
    ensures head != NULL <==> s != []
  {
  }

  lemma {:induction false} DistinctParts(a: seq<Ref>, b: seq<Ref>)
    requires Distinct(a + b)
    ensures Distinct(a) && Distinct(b) && forall x :: x in a ==> x !in b
  {
    assert forall i :: 0 <= i < |a| ==> (a + b)[i] == a[i];
    assert forall i :: 0 <= i < |b| ==> (a + b)[|a| + i] == b[i];
  }

  lemma {:induction false} DistinctJoin(a: seq<Ref>, b: seq<Ref>)
    requires Distinct(a) && Distinct(b) && forall x :: x in a ==> x !in b
    ensures Distinct(a + b)
  {
    forall i, j | 0 <= i < j < |a + b|
      ensures (a + b)[i] != (a + b)[j]
    {
      assert (a + b)[i] == if i < |a| then a[i] else b[i - |a|];
      assert (a + b)[j] == if j < |a| then a[j] else b[j - |a|];
      assert i < |a| ==> a[i] in a;
    }
  }

  /** Unlinking the first call of `rest`, behind the last one of `kept`. */
  lemma {:induction false} UnlinkLinked(next: map<Ref, Ref>, kept: seq<Ref>, rest: seq<Ref>, head: Ref, tail: Ref)
    requires Linked(next, kept + rest, head, tail) && rest != []
    ensures rest[0] in next
    ensures var previous, x := Last(kept), rest[0];
            Linked(if previous == NULL then next else next[previous := next[x]], kept + rest[1..],
                   if previous == NULL then next[x] else head, if tail == x then previous else tail)
  {
    var x, more, previous := rest[0], rest[1..], Last(kept);
    assert forall y :: y in kept ==> y in kept + rest;
    assert forall y :: y in rest ==> y in kept + rest;
    DistinctParts(kept, rest);
    DistinctJoin(kept, more);
    ChainSplit(next, kept, rest, NULL);
    var target := next[x];
    assert target == First(more);
    if kept == [] {
      assert kept + more == more;
    } else {
      ChainRedirect(next, kept, x, target);
      ChainFrame(next, more, NULL, previous, target);
      ChainSplit(next[previous := target], kept, more, NULL);
    }
    UnlinkEnds(kept, rest, head, tail);
  }

  lemma {:induction false} UnlinkEnds(kept: seq<Ref>, rest: seq<Ref>, head: Ref, tail: Ref)
    requires rest != [] && Distinct(kept + rest) && NULL !in kept + rest && head == First(kept + rest)
    requires tail == Last(kept + rest)
    ensures (if kept == [] then First(rest[1..]) else head) == First(kept + rest[1..])
    ensures (if tail == rest[0] then Last(kept) else tail) == Last(kept + rest[1..])
    ensures NULL !in kept + rest[1..] && (Last(kept) == NULL <==> kept == [])
  {
    assert forall y :: y in kept + rest[1..] ==> y in kept + rest;
    assert tail == rest[|rest| - 1];
    DistinctParts(kept, rest);
    assert kept != [] ==> kept[|kept| - 1] in kept + rest;
  }

  class Exec {
    var next: map<Ref, Ref>
    var head: Ref
    var tail: Ref
    var count: nat
    ghost var calls: seq<Ref>
    ghost var running: seq<Ref>

    /** The counter also counts the call that was popped to run. */
    ghost predicate Valid()
      reads this
    {
      Linked(next, calls, head, tail) && count == |calls| + |running| && |running| <= 1 && NULL !in running
        && forall x :: x in running ==> x !in calls
    }

    constructor ()
      ensures Valid() && calls == [] && running == []
    {
      next, head, tail, count, calls, running := map[], NULL, NULL, 0, [], [];
    }

    method Append(frame: Ref)
      requires Linked(next, calls, head, tail) && frame != NULL && frame !in calls
      modifies this
      ensures Linked(next, calls, head, tail) && calls == old(calls) + [frame] && count == old(count)
      ensures running == old(running)
    {
      AppendLinked(next, calls, head, tail, frame);
      next := next[frame := NULL];
      if tail != NULL {
        next := next[tail := frame];
      } else {
        head := frame;
      }
      tail := frame;
      calls := calls + [frame];
    }

    method Pop() returns (frame: Ref)
      requires Linked(next, calls, head, tail)
      modifies this
      ensures Linked(next, calls, head, tail) && count == old(count) && running == old(running)
      ensures if old(calls) == [] then frame == NULL && calls == []
                else frame == old(calls)[0] && calls == old(calls)[1..]
    {
      frame := head;
      if frame == NULL {
        return;
      }
      PopLinked(next, calls, head, tail);
      head := next[frame];
      if head == NULL {
        tail := NULL;
      }
      next := next[frame := NULL];
      calls := calls[1..];
    }

    /** Unlinks the calls of `retired` and frees them. */
    method Collect(retired: set<Ref>)
      requires Valid()
      modifies this
      ensures Valid() && calls == Without(old(calls), retired) && running == old(running)
    {
      hide Distinct, Without;
      var previous, link := NULL, head;
      ghost var kept, rest := [], calls;
      assert kept + rest == calls && kept + Without(rest, retired) == Without(rest, retired);
      while link != NULL
        invariant Valid() && running == old(running) && calls == kept + rest
        invariant link == First(rest) && previous == Last(kept)
        invariant Without(old(calls), retired) == kept + Without(rest, retired)
        decreases |rest|
      {
        var frame := link;
        ChainSplit(next, kept, rest, NULL);
        link := next[frame];
        WithoutFirst(rest, retired);
        if frame !in retired {
          previous := frame;
          assert kept + [frame] + rest[1..] == kept + rest;
          assert kept + ([frame] + Without(rest[1..], retired)) == kept + [frame] + Without(rest[1..], retired);
          kept, rest := kept + [frame], rest[1..];
        } else {
          Unlink(previous, frame, kept, rest);
          rest := rest[1..];
        }
      }
      NothingLeft(calls, kept, rest);
      assert Without([], retired) == [] by {
        WithoutNothing(retired);
      }
    }

    method Unlink(previous: Ref, frame: Ref, ghost kept: seq<Ref>, ghost rest: seq<Ref>)
      requires Valid() && calls == kept + rest && rest != [] && frame == rest[0]
      requires previous == Last(kept)
      modifies this
      ensures Valid() && running == old(running) && calls == kept + rest[1..]
    {
      UnlinkLinked(next, kept, rest, head, tail);
      if previous == NULL {
        head := next[frame];
      } else {
        next := next[previous := next[frame]];
      }
      if tail == frame {
        tail := previous;
      }
      count := count - 1;
      calls := kept + rest[1..];
    }

    /** `async_lower`: collect, queue the new call, start it, collect again. */
    method Lower(frame: Ref, before: set<Ref>, after: set<Ref>)
      requires Valid() && frame != NULL && frame !in calls && frame !in running
      modifies this
      ensures Valid() && running == old(running) && calls == Without(Without(old(calls), before) + [frame], after)
    {
      Collect(before);
      Append(frame);
      count := count + 1;
      Collect(after);
    }

    /** Everything that happens while a call runs. */
    method Run(events: seq<Event>)
      requires Valid() && Fresh(calls + running, events)
      modifies this
      ensures Valid() && running == old(running) && calls == After(old(calls), events)
    {
      var i := 0;
      assert events[0..] == events;
      while i < |events|
        invariant 0 <= i <= |events| && Valid() && running == old(running)
        invariant Fresh(calls + running, events[i..]) && After(old(calls), events) == After(calls, events[i..])
      {
        assert events[i..][0] == events[i] && events[i..][1..] == events[i + 1..];
        FreshStep(calls, running, events[i..]);
        match events[i] {
          case Lowered(call) =>
            Append(call);
            count := count + 1;
          case Collected(gone) =>
            Collect(gone);
        }
        i := i + 1;
      }
      assert events[i..] == [];
    }

    /** One turn of the driver: the popped call stays counted while it runs. */
    method TakeTurn(events: seq<Event>)
      requires Valid() && running == [] && calls != [] && Fresh(calls, events)
      modifies this
      ensures Valid() && running == [] && calls == Turn(old(calls), events)
    {
      var frame := Pop();
      running := [frame];
      PoppedFresh(old(calls), events);
      Run(events);
      assert frame !in calls;
      running := [];
      Append(frame);
    }

    /** `poll`: as many turns as there are quanta and calls, from a queue that is
        not empty, and none after a failed one. Then the finished calls go, and the
        result says whether calls are left. A failed turn ends the poll at once. */
    method Poll(quanta: nat, before: set<Ref>, turns: seq<seq<Event>>, outcomes: seq<Status>, after: set<Ref>)
      returns (status: Status, pending: nat)
      requires Valid() && running == [] && |turns| == |outcomes| == quanta && AllFresh(Without(calls, before), turns)
      modifies this
      ensures Valid() && running == [] && pending == |calls|
      ensures var start := Without(old(calls), before);
              var n := Driven(start, turns, outcomes, Min(|start|, quanta));
              var driven := Turns(start, turns[..n]);
              if n > 0 && Fails(outcomes[n - 1]) then calls == driven && status == outcomes[n - 1]
              else calls == Without(driven, after) && status == if calls == [] then Ok else Yielded
    {
      hide Without, Turn, Distinct, Chain, Fresh, Linked;
      Collect(before);
      var limit := if count < quanta then count else quanta;
      status := Drive(limit, turns, outcomes);
      if status == Ok {
        Collect(after);
      }
      pending := count;
      if status == Ok && count != 0 {
        status := Yielded;
      }
    }

    /** The loop of `poll`. */
    method Drive(limit: nat, turns: seq<seq<Event>>, outcomes: seq<Status>) returns (status: Status)
      requires Valid() && running == [] && limit <= |turns| == |outcomes| && AllFresh(calls, turns)
      modifies this
      ensures Valid() && running == []
      ensures var n := Driven(old(calls), turns, outcomes, limit);
              && calls == Turns(old(calls), turns[..n])
              && status == if n > 0 && Fails(outcomes[n - 1]) then outcomes[n - 1] else Ok
    {
      hide Without, Turn, Distinct, Chain, Fresh, Linked;
      var i := 0;
      status := Ok;
      assert turns[..0] == [] && turns[0..] == turns && outcomes[0..] == outcomes;
      ghost var n := Driven(calls, turns, outcomes, limit);
      while status == Ok && i < limit
        invariant 0 <= i <= limit && Valid() && running == []
        invariant status != Ok ==> i > 0 && status == outcomes[i - 1] && Fails(status) && n == i
        invariant status == Ok ==> n == i + Driven(calls, turns[i..], outcomes[i..], limit - i)
        invariant status == Ok && i > 0 ==> !Fails(outcomes[i - 1])
        invariant calls == Turns(old(calls), turns[..i]) && AllFresh(calls, turns[i..])
        decreases limit - i, status == Ok
      {
        HeadMeans(next, calls, head, tail);
        if head == NULL {
          break;
        }
        DrivenStep(calls, turns, outcomes, i, limit);
        AllFreshStep(calls, turns, i);
        TurnsSnoc(old(calls), turns[..i], turns[i]);
        TakeTurn(turns[i]);
        assert turns[..i + 1] == turns[..i] + [turns[i]];
        status := if outcomes[i] == Yielded then Ok else outcomes[i];
        i := i + 1;
      }
    }
  }

  lemma {:induction false} DrivenStep(s: seq<Ref>, turns: seq<seq<Event>>, outcomes: seq<Status>, i: nat, limit: nat)
    requires i < limit <= |turns| && limit <= |outcomes| && s != []
    ensures Driven(s, turns[i..], outcomes[i..], limit - i) ==
            if Fails(outcomes[i]) then 1
            else 1 + Driven(Turn(s, turns[i]), turns[i + 1..], outcomes[i + 1..], limit - i - 1)
  {
    hide Turn;
    assert turns[i..][1..] == turns[i + 1..] && outcomes[i..][1..] == outcomes[i + 1..];
  }

  lemma {:induction false} AllFreshStep(s: seq<Ref>, turns: seq<seq<Event>>, i: nat)
    requires i < |turns| && AllFresh(s, turns[i..])
    ensures Fresh(s, turns[i]) && AllFresh(Turn(s, turns[i]), turns[i + 1..])
  {
    hide Turn, Fresh;
    assert turns[i..][1..] == turns[i + 1..];
  }

  /** New calls are new: not queued, not running, and not lowered twice. */
  ghost predicate Fresh(known: seq<Ref>, events: seq<Event>)
    decreases |events|
  {
    events == [] ||
    (match events[0]
     case Lowered(call) => call != NULL && call !in known && Fresh(known + [call], events[1..])
     case Collected(gone) => Fresh(known, events[1..]))
  }

  ghost predicate AllFresh(s: seq<Ref>, turns: seq<seq<Event>>)
    decreases |turns|
  {
    turns == [] || (Fresh(s, turns[0]) && AllFresh(Turn(s, turns[0]), turns[1..]))
  }

  /** Fresh for more calls is fresh for fewer. */
  lemma {:induction false} FreshFewer(a: seq<Ref>, b: seq<Ref>, events: seq<Event>)
    requires Fresh(a, events) && forall x :: x in b ==> x in a
    ensures Fresh(b, events)
    decreases |events|
  {
    if events != [] {
      match events[0]
      case Lowered(call) => FreshFewer(a + [call], b + [call], events[1..]);
      case Collected(gone) => FreshFewer(a, b, events[1..]);
    }
  }

  lemma {:induction false} FreshStep(calls: seq<Ref>, running: seq<Ref>, events: seq<Event>)
    requires Fresh(calls + running, events) && events != []
    ensures events[0].Lowered? ==>
              events[0].call != NULL && events[0].call !in calls && events[0].call !in running &&
              Fresh(calls + [events[0].call] + running, events[1..])
    ensures events[0].Collected? ==> Fresh(Without(calls, events[0].gone) + running, events[1..])
  {
    match events[0]
    case Lowered(call) =>
      FreshFewer(calls + running + [call], calls + [call] + running, events[1..]);
    case Collected(gone) =>
      FreshFewer(calls + running, Without(calls, gone) + running, events[1..]);
  }

  lemma {:induction false} PoppedFresh(s: seq<Ref>, events: seq<Event>)
    requires s != [] && Fresh(s, events)
    ensures Fresh(s[1..] + [s[0]], events)
  {
    FreshFewer(s, s[1..] + [s[0]], events);
  }

  lemma {:induction false} TurnsSnoc(s: seq<Ref>, turns: seq<seq<Event>>, turn: seq<Event>)
    ensures Turns(s, turns + [turn]) == Turn(Turns(s, turns), turn)
    decreases |turns|
  {
    if turns == [] {
      assert turns + [turn] == [turn];
    } else {
      TurnsSnoc(Turn(s, turns[0]), turns[1..], turn);
      assert (turns + [turn])[1..] == turns[1..] + [turn];
    }
  }
}
