/**
  The primitives of the artifact format (src/artifact.c): little-endian words,
  records of words, and counted lists.
 */
module ArtifactWords {
  import opened Common
  import opened Bytes

  /** What a reader makes of the bytes in front of its cursor: it refuses them as
      malformed, it has no room for what they say, or it goes on behind them. */
  datatype Parsed<+T> = Refused | Exhausted | Got(value: T, rest: seq<Byte>) {
    predicate IsFailure() {
      !Got?
    }

    function PropagateFailure<U>(): Parsed<U>
      requires !Got?
    {
      if Exhausted? then Parsed<U>.Exhausted else Parsed<U>.Refused
    }

    function Extract(): (T, seq<Byte>)
      requires Got?
    {
      (value, rest)
    }
  }

  // ---------------------------------------------------------------- words

  datatype Word = U32(v: nat) | U64(v: nat)

  function Width(w: Word): nat {
    if w.U32? then 4 else 8
  }

  predicate InRange(w: Word) {
    w.v <= if w.U32? then MAX32 else MAX64
  }

  predicate AllInRange(ws: seq<Word>) {
    forall i :: 0 <= i < |ws| ==> InRange(ws[i])
  }

  function PutWords(ws: seq<Word>): seq<Byte> {
    if ws == [] then [] else Le(ws[0].v, Width(ws[0])) + PutWords(ws[1..])
  }

  function GetWords(b: seq<Byte>, shape: seq<nat>): (r: Parsed<seq<nat>>)
    ensures r.Got? ==> |r.value| == |shape| && |r.rest| <= |b|
    decreases |shape|
  {
    if shape == [] then Got([], b)
    else if |b| < shape[0] then Refused
    else
      var (vs, rest) :- GetWords(b[shape[0]..], shape[1..]);
      Got([FromLe(b[..shape[0]])] + vs, rest)
  }

  function Shape(ws: seq<Word>): seq<nat> {
    seq(|ws|, i requires 0 <= i < |ws| => Width(ws[i]))
  }

  function Values(ws: seq<Word>): seq<nat> {
    seq(|ws|, i requires 0 <= i < |ws| => ws[i].v)
  }

  lemma {:induction false} WordRoundTrip(w: Word, rest: seq<Byte>)
    requires InRange(w)
    ensures var b := Le(w.v, Width(w)) + rest; FromLe(b[..Width(w)]) == w.v && b[Width(w)..] == rest
  {
    assert Pow256(0) == 1 && Pow256(1) == 256 && Pow256(2) == 0x1_0000 && Pow256(3) == 0x100_0000
        && Pow256(4) == MAX32 + 1;
    assert Pow256(5) == 0x100_0000_0000 && Pow256(6) == 0x1_0000_0000_0000 && Pow256(7) == 0x100_0000_0000_0000
        && Pow256(8) == MAX64 + 1;
    LeRoundTrip(w.v, Width(w));
    assert (Le(w.v, Width(w)) + rest)[..Width(w)] == Le(w.v, Width(w));
  }

  lemma {:induction false} GetStep(b: seq<Byte>, n: nat, shape: seq<nat>)
    requires n <= |b| && GetWords(b[n..], shape).Got?
    ensures GetWords(b, [n] + shape) ==
              Got([FromLe(b[..n])] + GetWords(b[n..], shape).value, GetWords(b[n..], shape).rest)
  {
    hide FromLe;
    assert ([n] + shape)[1..] == shape;
  }

  lemma {:induction false} WordsStep(ws: seq<Word>)
    requires ws != []
    ensures Shape(ws) == [Width(ws[0])] + Shape(ws[1..]) && Values(ws) == [ws[0].v] + Values(ws[1..])
  {
  }

  lemma {:induction false} PutStep(ws: seq<Word>, rest: seq<Byte>)
    requires ws != []
    ensures PutWords(ws) + rest == Le(ws[0].v, Width(ws[0])) + (PutWords(ws[1..]) + rest)
  {
    hide Le;
  }

  lemma {:induction false} NoWords(rest: seq<Byte>)
    ensures GetWords(PutWords([]) + rest, Shape([])) == Got(Values([]), rest)
  {
    assert PutWords([]) + rest == rest && Shape([]) == [] && Values([]) == [];
  }

  /** Reading what was written gives the words back and leaves the rest. */
  lemma {:induction false} WordsRoundTrip(ws: seq<Word>, rest: seq<Byte>)
    requires AllInRange(ws)
    ensures GetWords(PutWords(ws) + rest, Shape(ws)) == Got(Values(ws), rest)
  {
    if ws == [] {
      NoWords(rest);
    } else {
      var tail := PutWords(ws[1..]) + rest;
      WordsRoundTrip(ws[1..], rest);
      hide Le, FromLe, Shape, Values, GetWords, PutWords;
      PutStep(ws, rest);
      WordRoundTrip(ws[0], tail);
      GetStep(PutWords(ws) + rest, Width(ws[0]), Shape(ws[1..]));
      WordsStep(ws);
    }
  }

  /** The bytes of a record. */
  function Total(shape: seq<nat>): nat {
    if shape == [] then 0 else shape[0] + Total(shape[1..])
  }

  lemma {:induction false} PutWordsSize(ws: seq<Word>)
    ensures |PutWords(ws)| == Total(Shape(ws))
  {
    if ws != [] {
      PutWordsSize(ws[1..]);
      assert Shape(ws)[1..] == Shape(ws[1..]);
    }
  }

  /** A record takes exactly its bytes. */
  lemma {:induction false} GetRest(b: seq<Byte>, shape: seq<nat>)
    requires GetWords(b, shape).Got?
    ensures Total(shape) <= |b| && GetWords(b, shape).rest == b[Total(shape)..]
    decreases |shape|
  {
    hide FromLe;
    if shape != [] {
      GetRest(b[shape[0]..], shape[1..]);
    }
  }

  // ---------------------------------------------------------------- records

  /** A record that the restoring reader builds from its words. */
  function Record<T>(b: seq<Byte>, shape: seq<nat>, build: seq<nat> -> Option<T>): Parsed<T> {
    var (f, rest) :- GetWords(b, shape);
    var x := build(f);
    if x.None? then Refused else Got(x.value, rest)
  }

  /** A record that the validating reader only looks at. */
  function Passed(b: seq<Byte>, shape: seq<nat>, sound: seq<nat> -> bool): Parsed<()> {
    var (f, rest) :- GetWords(b, shape);
    if sound(f) then Got((), rest) else Refused
  }

  lemma {:induction false} RecordRoundTrip<T>(ws: seq<Word>, shape: seq<nat>, build: seq<nat> -> Option<T>,
      sound: seq<nat> -> bool, rest: seq<Byte>)
    requires AllInRange(ws) && shape == Shape(ws)
    ensures Record(PutWords(ws) + rest, shape, build) ==
              (var x := build(Values(ws)); if x.None? then Refused else Got(x.value, rest))
    ensures Passed(PutWords(ws) + rest, shape, sound) == if sound(Values(ws)) then Got((), rest) else Refused
  {
    WordsRoundTrip(ws, rest);
  }

  // ---------------------------------------------------------------- lists of records

  function PutRecords<T>(xs: seq<T>, words: T -> seq<Word>): seq<Byte> {
    if xs == [] then [] else PutWords(words(xs[0])) + PutRecords(xs[1..], words)
  }

  /** Builds `n` records. */
  function Records<T>(b: seq<Byte>, n: nat, shape: seq<nat>, build: seq<nat> -> Option<T>): (r: Parsed<seq<T>>)
    ensures r.Got? ==> |r.value| == n
    decreases n
  {
    if n == 0 then Got([], b)
    else
      var (x, s) :- Record(b, shape, build);
      var (xs, rest) :- Records(s, n - 1, shape, build);
      Got([x] + xs, rest)
  }

  /** Looks at `n` records. */
  function PassAll(b: seq<Byte>, n: nat, shape: seq<nat>, sound: seq<nat> -> bool): Parsed<()>
    decreases n
  {
    if n == 0 then Got((), b)
    else
      var (_, s) :- Passed(b, shape, sound);
      PassAll(s, n - 1, shape, sound)
  }

  /** Each record of `xs` fits its words, is built again exactly if it is `good`,
      and passes exactly if it is `fine`. */
  ghost predicate Coded<T(!new)>(xs: seq<T>, words: T -> seq<Word>, shape: seq<nat>, build: seq<nat> -> Option<T>,
      good: T -> bool,
                                 sound: seq<nat> -> bool, fine: T -> bool) {
    forall x :: x in xs ==>
      && AllInRange(words(x)) && Shape(words(x)) == shape
      && build(Values(words(x))) == (if good(x) then Some(x) else None)
      && sound(Values(words(x))) == fine(x)
  }

  lemma {:induction false} RecordsStep<T>(xs: seq<T>, words: T -> seq<Word>, rest: seq<Byte>)
    requires xs != []
    ensures PutRecords(xs, words) + rest == PutWords(words(xs[0])) + (PutRecords(xs[1..], words) + rest)
  {
    hide PutWords;
  }

  ghost predicate Every<T(!new)>(xs: seq<T>, p: T -> bool) {
    forall x :: x in xs ==> p(x)
  }

  lemma {:induction false} EveryStep<T(!new)>(xs: seq<T>, p: T -> bool)
    requires xs != []
    ensures Every(xs, p) <==> p(xs[0]) && Every(xs[1..], p)
  {
    assert xs == [xs[0]] + xs[1..];
  }

  lemma {:induction false} CodedTail<T(!new)>(xs: seq<T>, words: T -> seq<Word>, shape: seq<nat>,
      build: seq<nat> -> Option<T>, good: T -> bool,
                                              sound: seq<nat> -> bool, fine: T -> bool)
    requires xs != [] && Coded(xs, words, shape, build, good, sound, fine)
    ensures Coded(xs[1..], words, shape, build, good, sound, fine)
    ensures AllInRange(words(xs[0])) && Shape(words(xs[0])) == shape
    ensures build(Values(words(xs[0]))) == (if good(xs[0]) then Some(xs[0]) else None)
    ensures sound(Values(words(xs[0]))) == fine(xs[0])
  {
    hide AllInRange, Shape, Values;
    assert xs[0] in xs;
  }

  /** A list of records is built again exactly if every record is good, and passes
      exactly if every record is fine. */
  lemma {:induction false} RecordsRoundTrip<T(!new)>(xs: seq<T>, words: T -> seq<Word>, shape: seq<nat>,
      build: seq<nat> -> Option<T>, good: T -> bool,
                                                     sound: seq<nat> -> bool, fine: T -> bool, rest: seq<Byte>)
    requires Coded(xs, words, shape, build, good, sound, fine)
    ensures Records(PutRecords(xs, words) + rest, |xs|, shape, build) ==
              if Every(xs, good) then Got(xs, rest) else Refused
    ensures PassAll(PutRecords(xs, words) + rest, |xs|, shape, sound) ==
              if Every(xs, fine) then Got((), rest) else Refused
  {
    if xs == [] {
      assert PutRecords(xs, words) + rest == rest;
    } else {
      hide Record, Passed, PutWords, Shape, Values, AllInRange, PutRecords, Every, Coded;
      var x, tail := xs[0], PutRecords(xs[1..], words) + rest;
      CodedTail(xs, words, shape, build, good, sound, fine);
      RecordsStep(xs, words, rest);
      RecordRoundTrip(words(x), shape, build, sound, tail);
      RecordsRoundTrip(xs[1..], words, shape, build, good, sound, fine, rest);
      EveryStep(xs, good);
      EveryStep(xs, fine);
      assert xs == [x] + xs[1..];
    }
  }

  /** Both readers end at the same place whenever both accept. */
  lemma {:induction false} RecordsAgree<T>(b: seq<Byte>, n: nat, shape: seq<nat>, build: seq<nat> -> Option<T>,
      sound: seq<nat> -> bool)
    ensures Records(b, n, shape, build).Got? && PassAll(b, n, shape, sound).Got? ==>
              Records(b, n, shape, build).rest == PassAll(b, n, shape, sound).rest
    decreases n
  {
    if n > 0 && Record(b, shape, build).Got? {
      RecordsAgree(Record(b, shape, build).rest, n - 1, shape, build, sound);
    }
  }

  // ---------------------------------------------------------------- lists that are appended to the context

  /** Builds `n` records and appends each to the context, which may have no `room` for one. */
  function Appends<T>(b: seq<Byte>, n: nat, shape: seq<nat>, build: seq<nat> -> Option<T>,
      room: T -> bool): (r: Parsed<seq<T>>)
    ensures r.Got? ==> |r.value| == n
    decreases n
  {
    if n == 0 then Got([], b)
    else
      var (x, s) :- Record(b, shape, build);
      if !room(x) then Exhausted
      else
        var (xs, rest) :- Appends(s, n - 1, shape, build, room);
        Got([x] + xs, rest)
  }

  /** What becomes of a whole: it is kept, malformed, or too much for the context. */
  datatype Fate = Kept | Bad | Full

  /** The first record that cannot be kept decides. */
  function FateOf<T>(xs: seq<T>, good: T -> bool, room: T -> bool): Fate {
    if xs == [] then Kept
    else if !good(xs[0]) then Bad
    else if !room(xs[0]) then Full
    else FateOf(xs[1..], good, room)
  }

  function Outcome<T>(fate: Fate, x: T, rest: seq<Byte>): Parsed<T> {
    match fate
    case Kept => Got(x, rest)
    case Bad => Refused
    case Full => Exhausted
  }

  lemma {:induction false} FateKept<T(!new)>(xs: seq<T>, good: T -> bool, room: T -> bool)
    ensures FateOf(xs, good, room).Kept? <==> Every(xs, good) && Every(xs, room)
  {
    if xs != [] {
      EveryStep(xs, good);
      EveryStep(xs, room);
      FateKept(xs[1..], good, room);
    }
  }

  lemma {:induction false} AppendsRoundTrip<T(!new)>(xs: seq<T>, words: T -> seq<Word>, shape: seq<nat>,
      build: seq<nat> -> Option<T>, good: T -> bool,
                                                     room: T -> bool, sound: seq<nat> -> bool, fine: T -> bool,
                                                       rest: seq<Byte>)
    requires Coded(xs, words, shape, build, good, sound, fine)
    ensures Appends(PutRecords(xs, words) + rest, |xs|, shape, build, room) == Outcome(FateOf(xs, good, room), xs, rest)
  {
    if xs == [] {
      assert PutRecords(xs, words) + rest == rest;
    } else {
      hide Record, Passed, PutWords, Shape, Values, AllInRange, PutRecords, Coded;
      var x, tail := xs[0], PutRecords(xs[1..], words) + rest;
      CodedTail(xs, words, shape, build, good, sound, fine);
      RecordsStep(xs, words, rest);
      RecordRoundTrip(words(x), shape, build, sound, tail);
      AppendsRoundTrip(xs[1..], words, shape, build, good, room, sound, fine, rest);
      assert xs == [x] + xs[1..];
    }
  }

  lemma {:induction false} AppendsAgree<T>(b: seq<Byte>, n: nat, shape: seq<nat>, build: seq<nat> -> Option<T>,
      room: T -> bool, sound: seq<nat> -> bool)
    ensures Appends(b, n, shape, build, room).Got? && PassAll(b, n, shape, sound).Got? ==>
              Appends(b, n, shape, build, room).rest == PassAll(b, n, shape, sound).rest
    decreases n
  {
    if n > 0 && Record(b, shape, build).Got? {
      AppendsAgree(Record(b, shape, build).rest, n - 1, shape, build, room, sound);
    }
  }

  // ---------------------------------------------------------------- lists of records with lists inside

  function PutMany<T>(xs: seq<T>, i: nat, put: T -> seq<Byte>): seq<Byte>
    requires i <= |xs|
    decreases |xs| - i
  {
    if i == |xs| then [] else put(xs[i]) + PutMany(xs, i + 1, put)
  }

  /** Builds the elements `i` to `n - 1`. */
  function Many<T>(b: seq<Byte>, i: nat, n: nat, get: (nat, seq<Byte>) -> Parsed<T>): (r: Parsed<seq<T>>)
    requires i <= n
    ensures r.Got? ==> |r.value| == n - i
    decreases n - i
  {
    if i == n then Got([], b)
    else
      var (x, s) :- get(i, b);
      var (xs, rest) :- Many(s, i + 1, n, get);
      Got([x] + xs, rest)
  }

  /** Looks at the elements `i` to `n - 1`. */
  function PassMany(b: seq<Byte>, i: nat, n: nat, pass: (nat, seq<Byte>) -> Parsed<()>): Parsed<()>
    requires i <= n
    decreases n - i
  {
    if i == n then Got((), b)
    else
      var (_, s) :- pass(i, b);
      PassMany(s, i + 1, n, pass)
  }

  ghost predicate RoundTrips<T(!new)>(xs: seq<T>, put: T -> seq<Byte>, get: (nat, seq<Byte>) -> Parsed<T>,
      good: (nat, T) -> bool,
                                      pass: (nat, seq<Byte>) -> Parsed<()>, fine: (nat, T) -> bool) {
    forall i: nat, s :: i < |xs| ==> Trips(xs[i], i, s, put, get, good, pass, fine)
  }

  ghost predicate Trips<T>(x: T, i: nat, s: seq<Byte>, put: T -> seq<Byte>, get: (nat, seq<Byte>) -> Parsed<T>,
      good: (nat, T) -> bool,
                           pass: (nat, seq<Byte>) -> Parsed<()>, fine: (nat, T) -> bool) {
    && get(i, put(x) + s) == (if good(i, x) then Got(x, s) else Refused)
    && pass(i, put(x) + s) == (if fine(i, x) then Got((), s) else Refused)
  }

  predicate AllOf<T>(xs: seq<T>, i: nat, good: (nat, T) -> bool) {
    forall j: nat :: i <= j < |xs| ==> good(j, xs[j])
  }

  lemma {:induction false} ManyRoundTrip<T(!new)>(xs: seq<T>, i: nat, put: T -> seq<Byte>,
      get: (nat, seq<Byte>) -> Parsed<T>, good: (nat, T) -> bool,
                                                  pass: (nat, seq<Byte>) -> Parsed<()>, fine: (nat, T) -> bool,
                                                    rest: seq<Byte>)
    requires i <= |xs| && RoundTrips(xs, put, get, good, pass, fine)
    ensures Many(PutMany(xs, i, put) + rest, i, |xs|, get) == if AllOf(xs, i, good) then Got(xs[i..], rest) else Refused
    ensures PassMany(PutMany(xs, i, put) + rest, i, |xs|, pass) == if AllOf(xs, i, fine) then Got((), rest) else Refused
    decreases |xs| - i
  {
    if i == |xs| {
      assert PutMany(xs, i, put) + rest == rest;
    } else {
      var tail := PutMany(xs, i + 1, put) + rest;
      assert PutMany(xs, i, put) + rest == put(xs[i]) + tail;
      assert Trips(xs[i], i, tail, put, get, good, pass, fine);
      ManyRoundTrip(xs, i + 1, put, get, good, pass, fine, rest);
      assert AllOf(xs, i, good) <==> good(i, xs[i]) && AllOf(xs, i + 1, good);
      assert AllOf(xs, i, fine) <==> fine(i, xs[i]) && AllOf(xs, i + 1, fine);
      assert xs[i..] == [xs[i]] + xs[i + 1..];
    }
  }

  /** Two readers of an element end at the same place whenever both accept it. */
  ghost predicate Agree<T(!new)>(get: (nat, seq<Byte>) -> Parsed<T>, pass: (nat, seq<Byte>) -> Parsed<()>) {
    forall i: nat, b :: get(i, b).Got? && pass(i, b).Got? ==> get(i, b).rest == pass(i, b).rest
  }

  lemma {:induction false} ManyAgree<T(!new)>(b: seq<Byte>, i: nat, n: nat, get: (nat, seq<Byte>) -> Parsed<T>,
      pass: (nat, seq<Byte>) -> Parsed<()>)
    requires i <= n && Agree(get, pass)
    ensures Many(b, i, n, get).Got? && PassMany(b, i, n, pass).Got? ==>
              Many(b, i, n, get).rest == PassMany(b, i, n, pass).rest
    decreases n - i
  {
    if i < n && get(i, b).Got? && pass(i, b).Got? {
      ManyAgree(get(i, b).rest, i + 1, n, get, pass);
    }
  }
}
