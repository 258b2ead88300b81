/**
  Where every field of an artifact is (src/artifact.c): the bytes of each kind of
  record by offset, independently of the code that writes and reads them.
 */
module ArtifactBytes {
  import opened Common
  import opened Bytes
  import opened ArtifactWords
  import opened ArtifactRecords
  import opened ArtifactLists
  import opened DefinedTypes
  import opened ArtifactCore
  import opened ArtifactState
  import opened ArtifactFile

  // ---------------------------------------------------------------- words

  /** The 32-bit word at offset `at` of the record at `base`. */
  ghost predicate Half(b: seq<Byte>, base: nat, at: nat, n: int) {
    NumberAt(b, base + at, 4, n)
  }

  /** The 64-bit word there. */
  ghost predicate Full(b: seq<Byte>, base: nat, at: nat, n: int) {
    NumberAt(b, base + at, 8, n)
  }

  /** Where word `i` of a record starts. */
  function Before(ws: seq<Word>, i: nat): (n: nat)
    requires i <= |ws|
  {
    if i == 0 then 0 else Before(ws, i - 1) + Width(ws[i - 1])
  }

  /** The words `ws` are at `base`, one after the other. */
  ghost predicate WordsAt(b: seq<Byte>, base: nat, ws: seq<Word>) {
    forall i :: 0 <= i < |ws| ==> WordAt(b, base, ws, i)
  }

  ghost predicate WordAt(b: seq<Byte>, base: nat, ws: seq<Word>, i: nat)
    requires i < |ws|
  {
    NumberAt(b, base + Before(ws, i), Width(ws[i]), ws[i].v)
  }

  // ---------------------------------------------------------------- placing words

  lemma {:induction false} BeforeShift(ws: seq<Word>, i: nat)
    requires 0 < i <= |ws|
    ensures Before(ws, i) == Width(ws[0]) + Before(ws[1..], i - 1)
  {
    if i > 1 {
      BeforeShift(ws, i - 1);
      assert ws[1..][i - 2] == ws[i - 1];
    }
  }

  /** The bytes before and behind word `i`. */
  lemma {:induction false} PutSplit(ws: seq<Word>, i: nat)
    requires i < |ws|
    ensures PutWords(ws) == PutWords(ws[..i]) + (Le(ws[i].v, Width(ws[i])) + PutWords(ws[i + 1..]))
    ensures |PutWords(ws[..i])| == Before(ws, i)
    decreases i
  {
    hide Le;
    if i == 0 {
      assert ws[..0] == [];
      assert PutWords(ws[..0]) == [];
    } else {
      PutSplit(ws[1..], i - 1);
      BeforeShift(ws, i);
      var first := Le(ws[0].v, Width(ws[0]));
      assert ws[..i][1..] == ws[1..][..i - 1] && ws[1..][i..] == ws[i + 1..] && ws[1..][i - 1] == ws[i];
      assert PutWords(ws[..i]) == first + PutWords(ws[1..][..i - 1]);
      assert PutWords(ws) == first + PutWords(ws[1..]);
    }
  }

  lemma {:induction false} WordBound(w: Word)
    requires InRange(w)
    ensures w.v < Pow256(Width(w))
  {
    assert Pow256(1) == 256 && Pow256(2) == 65536 && Pow256(3) == 16777216 && Pow256(4) == MAX32 + 1;
    assert Pow256(5) == 1099511627776 && Pow256(6) == 281474976710656 && Pow256(8) == MAX64 + 1;
  }

  /** Written words are found where they belong. */
  lemma {:induction false} WordsPut(before: seq<Byte>, ws: seq<Word>, after: seq<Byte>)
    requires AllInRange(ws)
    ensures WordsAt(before + PutWords(ws) + after, |before|, ws)
  {
    hide PutWords, Le, NumberAt, Pow256, Before;
    forall i | 0 <= i < |ws|
      ensures WordAt(before + PutWords(ws) + after, |before|, ws, i)
    {
      PutSplit(ws, i);
      WordBound(ws[i]);
      var x, y, z := PutWords(ws[..i]), Le(ws[i].v, Width(ws[i])), PutWords(ws[i + 1..]);
      LeNumber(before + x, ws[i].v, Width(ws[i]), z + after);
      assert before + (x + (y + z)) + after == before + x + y + (z + after);
    }
  }

  lemma {:induction false} Steps(ws: seq<Word>)
    ensures Before(ws, 0) == 0
    ensures forall k :: 0 <= k < |ws| ==> Before(ws, k + 1) == Before(ws, k) + Width(ws[k])
  {
  }

  // ---------------------------------------------------------------- records

  ghost predicate ValueImage(b: seq<Byte>, base: nat, at: nat, v: ValueType) {
    && Half(b, base, at, v.carrier)
    && Half(b, base, at + 4, if v.isReference then 1 else 0)
    && Half(b, base, at + 8, if v.nullable then 1 else 0)
    && Half(b, base, at + 12, v.heapKind)
    && Half(b, base, at + 16, v.typeIndex)
  }

  /** A span is an offset into the source, all ones for none, and a size. */
  ghost predicate SpanImage(b: seq<Byte>, base: nat, at: nat, s: Span) {
    && Full(b, base, at, if s.at.At? && s.at.offset >= 0 then s.at.offset else 18446744073709551615)
    && Half(b, base, at + 8, s.size)
  }

  ghost predicate TypedImage(b: seq<Byte>, base: nat, t: Typed) {
    && Half(b, base, 0, t.carrier)
    && ValueImage(b, base, 4, t.semantic)
  }

  lemma {:induction false} TypedPlaced(b: seq<Byte>, base: nat, t: Typed)
    requires WordsAt(b, base, TypedWords(t))
    ensures TypedImage(b, base, t)
  {
    var ws := TypedWords(t);
    hide NumberAt, Before;
    Steps(ws);
    assert WordAt(b, base, ws, 0) && WordAt(b, base, ws, 1) && WordAt(b, base, ws, 2) && WordAt(b, base, ws, 3)
        && WordAt(b, base, ws, 4) && WordAt(b, base, ws, 5);
  }

  ghost predicate FieldImage(b: seq<Byte>, base: nat, t: FieldType) {
    && Half(b, base, 0, t.packed)
    && Half(b, base, 4, if t.mutable then 1 else 0)
    && ValueImage(b, base, 8, t.semantic)
  }

  lemma {:induction false} FieldPlaced(b: seq<Byte>, base: nat, t: FieldType)
    requires WordsAt(b, base, FieldWords(t))
    ensures FieldImage(b, base, t)
  {
    var ws := FieldWords(t);
    hide NumberAt, Before;
    Steps(ws);
    assert WordAt(b, base, ws, 0) && WordAt(b, base, ws, 1) && WordAt(b, base, ws, 2) && WordAt(b, base, ws, 3)
        && WordAt(b, base, ws, 4) && WordAt(b, base, ws, 5) && WordAt(b, base, ws, 6);
  }

  ghost predicate CatchImage(b: seq<Byte>, base: nat, c: Catch) {
    && Half(b, base, 0, c.kind)
    && Half(b, base, 4, c.tag)
    && Half(b, base, 8, c.depth)
  }

  lemma {:induction false} CatchPlaced(b: seq<Byte>, base: nat, c: Catch)
    requires WordsAt(b, base, CatchWords(c))
    ensures CatchImage(b, base, c)
  {
    var ws := CatchWords(c);
    hide NumberAt, Before;
    Steps(ws);
    assert WordAt(b, base, ws, 0) && WordAt(b, base, ws, 1) && WordAt(b, base, ws, 2);
  }

  ghost predicate ImportImage(b: seq<Byte>, base: nat, x: Import) {
    && SpanImage(b, base, 0, x.mod)
    && SpanImage(b, base, 12, x.name)
    && Half(b, base, 24, x.kind)
    && Half(b, base, 28, x.item)
    && Half(b, base, 32, x.typeIndex)
  }

  lemma {:induction false} ImportPlaced(b: seq<Byte>, base: nat, x: Import)
    requires WordsAt(b, base, ImportWords(x))
    ensures ImportImage(b, base, x)
  {
    var ws := ImportWords(x);
    hide NumberAt, Before;
    Steps(ws);
    assert WordAt(b, base, ws, 0) && WordAt(b, base, ws, 1) && WordAt(b, base, ws, 2) && WordAt(b, base, ws, 3)
        && WordAt(b, base, ws, 4) && WordAt(b, base, ws, 5) && WordAt(b, base, ws, 6);
  }

  ghost predicate ExportImage(b: seq<Byte>, base: nat, x: Export) {
    && SpanImage(b, base, 0, x.name)
    && Half(b, base, 12, x.kind)
    && Half(b, base, 16, x.item)
  }

  lemma {:induction false} ExportPlaced(b: seq<Byte>, base: nat, x: Export)
    requires WordsAt(b, base, ExportWords(x))
    ensures ExportImage(b, base, x)
  {
    var ws := ExportWords(x);
    hide NumberAt, Before;
    Steps(ws);
    assert WordAt(b, base, ws, 0) && WordAt(b, base, ws, 1) && WordAt(b, base, ws, 2) && WordAt(b, base, ws, 3);
  }

  ghost predicate MemoryImage(b: seq<Byte>, base: nat, m: Mem) {
    && Half(b, base, 0, if m.imported then 1 else 0)
    && Half(b, base, 4, if m.shared then 1 else 0)
    && Half(b, base, 8, if m.memory64 then 1 else 0)
    && Half(b, base, 12, m.pageSize)
    && Full(b, base, 16, m.minimum)
    && Full(b, base, 24, m.maximum)
    && Half(b, base, 32, if m.hasMaximum then 1 else 0)
  }

  lemma {:induction false} MemoryPlaced(b: seq<Byte>, base: nat, m: Mem)
    requires WordsAt(b, base, MemoryWords(m))
    ensures MemoryImage(b, base, m)
  {
    var ws := MemoryWords(m);
    hide NumberAt, Before;
    Steps(ws);
    assert WordAt(b, base, ws, 0) && WordAt(b, base, ws, 1) && WordAt(b, base, ws, 2) && WordAt(b, base, ws, 3)
        && WordAt(b, base, ws, 4) && WordAt(b, base, ws, 5) && WordAt(b, base, ws, 6);
  }

  ghost predicate GlobalImage(b: seq<Byte>, base: nat, g: Global) {
    && Half(b, base, 0, g.carrier)
    && ValueImage(b, base, 4, g.semantic)
    && Half(b, base, 24, if g.mutable then 1 else 0)
    && Half(b, base, 28, if g.imported then 1 else 0)
    && SpanImage(b, base, 32, g.initializer)
  }

  lemma {:induction false} GlobalPlaced(b: seq<Byte>, base: nat, g: Global)
    requires WordsAt(b, base, GlobalWords(g))
    ensures GlobalImage(b, base, g)
  {
    var ws := GlobalWords(g);
    hide NumberAt, Before;
    Steps(ws);
    assert WordAt(b, base, ws, 0) && WordAt(b, base, ws, 1) && WordAt(b, base, ws, 2) && WordAt(b, base, ws, 3)
        && WordAt(b, base, ws, 4) && WordAt(b, base, ws, 5) && WordAt(b, base, ws, 6) && WordAt(b, base, ws, 7)
        && WordAt(b, base, ws, 8) && WordAt(b, base, ws, 9);
  }

  ghost predicate TableImage(b: seq<Byte>, base: nat, t: Table) {
    && Half(b, base, 0, t.carrier)
    && ValueImage(b, base, 4, t.semantic)
    && Half(b, base, 24, if t.imported then 1 else 0)
    && Full(b, base, 28, t.minimum)
    && Full(b, base, 36, t.maximum)
    && Half(b, base, 44, if t.hasMaximum then 1 else 0)
    && Half(b, base, 48, if t.table64 then 1 else 0)
    && SpanImage(b, base, 52, t.initializer)
  }

  lemma {:induction false} TablePlaced(b: seq<Byte>, base: nat, t: Table)
    requires WordsAt(b, base, TableWords(t))
    ensures TableImage(b, base, t)
  {
    var ws := TableWords(t);
    hide NumberAt, Before;
    Steps(ws);
    assert WordAt(b, base, ws, 0) && WordAt(b, base, ws, 1) && WordAt(b, base, ws, 2) && WordAt(b, base, ws, 3)
        && WordAt(b, base, ws, 4) && WordAt(b, base, ws, 5) && WordAt(b, base, ws, 6) && WordAt(b, base, ws, 7)
        && WordAt(b, base, ws, 8) && WordAt(b, base, ws, 9) && WordAt(b, base, ws, 10) && WordAt(b, base, ws, 11)
        && WordAt(b, base, ws, 12);
  }

  ghost predicate TagImage(b: seq<Byte>, base: nat, t: Tag) {
    && Half(b, base, 0, t.typeIndex)
    && Half(b, base, 4, if t.imported then 1 else 0)
  }

  lemma {:induction false} TagPlaced(b: seq<Byte>, base: nat, t: Tag)
    requires WordsAt(b, base, TagWords(t))
    ensures TagImage(b, base, t)
  {
    var ws := TagWords(t);
    hide NumberAt, Before;
    Steps(ws);
    assert WordAt(b, base, ws, 0) && WordAt(b, base, ws, 1);
  }

  ghost predicate DataImage(b: seq<Byte>, base: nat, d: DataSegment) {
    && Half(b, base, 0, d.mode)
    && Half(b, base, 4, d.memory)
    && SpanImage(b, base, 8, d.offset.span)
    && Half(b, base, 20, d.offset.result)
    && SpanImage(b, base, 24, d.data)
  }

  lemma {:induction false} DataPlaced(b: seq<Byte>, base: nat, d: DataSegment)
    requires WordsAt(b, base, DataWords(d))
    ensures DataImage(b, base, d)
  {
    var ws := DataWords(d);
    hide NumberAt, Before;
    Steps(ws);
    assert WordAt(b, base, ws, 0) && WordAt(b, base, ws, 1) && WordAt(b, base, ws, 2) && WordAt(b, base, ws, 3)
        && WordAt(b, base, ws, 4) && WordAt(b, base, ws, 5) && WordAt(b, base, ws, 6);
  }

  ghost predicate ItemImage(b: seq<Byte>, base: nat, x: Item) {
    && Half(b, base, 0, x.kind)
    && Half(b, base, 4, x.function_)
    && SpanImage(b, base, 8, x.expression.span)
    && Half(b, base, 20, x.expression.result)
  }

  lemma {:induction false} ItemPlaced(b: seq<Byte>, base: nat, x: Item)
    requires WordsAt(b, base, ItemWords(x))
    ensures ItemImage(b, base, x)
  {
    var ws := ItemWords(x);
    hide NumberAt, Before;
    Steps(ws);
    assert WordAt(b, base, ws, 0) && WordAt(b, base, ws, 1) && WordAt(b, base, ws, 2) && WordAt(b, base, ws, 3)
        && WordAt(b, base, ws, 4);
  }

  ghost predicate TypeImage(b: seq<Byte>, base: nat, t: FuncType) {
    && Half(b, base, 0, if t.defined then 1 else 0)
    && Half(b, base, 4, |t.params|)
    && Half(b, base, 8, |t.results|)
    && Half(b, base, 12, t.kind)
    && Half(b, base, 16, if t.final then 1 else 0)
    && Half(b, base, 20, t.super)
    && Half(b, base, 24, t.groupCount)
    && Half(b, base, 28, t.groupOffset)
    && Half(b, base, 32, |t.fields|)
  }

  lemma {:induction false} TypePlaced(b: seq<Byte>, base: nat, t: FuncType)
    requires WordsAt(b, base, TypeWords(t))
    ensures TypeImage(b, base, t)
  {
    var ws := TypeWords(t);
    hide NumberAt, Before;
    Steps(ws);
    assert WordAt(b, base, ws, 0) && WordAt(b, base, ws, 1) && WordAt(b, base, ws, 2) && WordAt(b, base, ws, 3)
        && WordAt(b, base, ws, 4) && WordAt(b, base, ws, 5) && WordAt(b, base, ws, 6) && WordAt(b, base, ws, 7)
        && WordAt(b, base, ws, 8);
  }

  ghost predicate ControlImage(b: seq<Byte>, base: nat, c: Control) {
    && Half(b, base, 0, c.kind)
    && Half(b, base, 4, c.opcode)
    && Half(b, base, 8, c.body)
    && Half(b, base, 12, c.else_)
    && Half(b, base, 16, c.end)
    && Half(b, base, 20, c.typeIndex)
    && Half(b, base, 24, c.result)
    && Half(b, base, 28, |c.catches|)
  }

  lemma {:induction false} ControlPlaced(b: seq<Byte>, base: nat, c: Control)
    requires WordsAt(b, base, ControlWords(c))
    ensures ControlImage(b, base, c)
  {
    var ws := ControlWords(c);
    hide NumberAt, Before;
    Steps(ws);
    assert WordAt(b, base, ws, 0) && WordAt(b, base, ws, 1) && WordAt(b, base, ws, 2) && WordAt(b, base, ws, 3)
        && WordAt(b, base, ws, 4) && WordAt(b, base, ws, 5) && WordAt(b, base, ws, 6) && WordAt(b, base, ws, 7);
  }

  ghost predicate FunctionImage(b: seq<Byte>, base: nat, x: Function) {
    && Half(b, base, 0, x.typeIndex)
    && Half(b, base, 4, if x.imported then 1 else 0)
    && Half(b, base, 8, |x.locals|)
    && SpanImage(b, base, 12, x.code)
    && Half(b, base, 24, |x.controls|)
  }

  lemma {:induction false} FunctionPlaced(b: seq<Byte>, base: nat, x: Function)
    requires WordsAt(b, base, FunctionWords(x))
    ensures FunctionImage(b, base, x)
  {
    var ws := FunctionWords(x);
    hide NumberAt, Before;
    Steps(ws);
    assert WordAt(b, base, ws, 0) && WordAt(b, base, ws, 1) && WordAt(b, base, ws, 2) && WordAt(b, base, ws, 3)
        && WordAt(b, base, ws, 4) && WordAt(b, base, ws, 5);
  }

  ghost predicate CoreImage(b: seq<Byte>, base: nat, c: Core) {
    && Half(b, base, 0, if c.requiresStore then 1 else 0)
    && Half(b, base, 4, |c.types|)
    && Half(b, base, 8, |c.functions|)
    && Half(b, base, 12, |c.imports|)
    && Half(b, base, 16, |c.exports|)
    && Half(b, base, 20, |c.memories|)
  }

  lemma {:induction false} CorePlaced(b: seq<Byte>, base: nat, c: Core)
    requires WordsAt(b, base, CoreWords(c))
    ensures CoreImage(b, base, c)
  {
    var ws := CoreWords(c);
    hide NumberAt, Before;
    Steps(ws);
    assert WordAt(b, base, ws, 0) && WordAt(b, base, ws, 1) && WordAt(b, base, ws, 2) && WordAt(b, base, ws, 3)
        && WordAt(b, base, ws, 4) && WordAt(b, base, ws, 5);
  }

  ghost predicate ElementTypeImage(b: seq<Byte>, base: nat, x: Element) {
    && Half(b, base, 0, x.mode)
    && Half(b, base, 4, x.table)
    && Half(b, base, 8, x.carrier)
    && ValueImage(b, base, 12, x.semantic)
  }

  lemma {:induction false} ElementTypePlaced(b: seq<Byte>, base: nat, x: Element)
    requires WordsAt(b, base, ElementTypeWords(x))
    ensures ElementTypeImage(b, base, x)
  {
    var ws := ElementTypeWords(x);
    hide NumberAt, Before;
    Steps(ws);
    assert WordAt(b, base, ws, 0) && WordAt(b, base, ws, 1) && WordAt(b, base, ws, 2) && WordAt(b, base, ws, 3)
        && WordAt(b, base, ws, 4) && WordAt(b, base, ws, 5) && WordAt(b, base, ws, 6) && WordAt(b, base, ws, 7);
  }

  ghost predicate ElementOffsetImage(b: seq<Byte>, base: nat, x: Element) {
    && SpanImage(b, base, 0, x.offset.span)
    && Half(b, base, 12, x.offset.result)
    && Half(b, base, 16, |x.items|)
  }

  lemma {:induction false} ElementOffsetPlaced(b: seq<Byte>, base: nat, x: Element)
    requires WordsAt(b, base, ElementOffsetWords(x))
    ensures ElementOffsetImage(b, base, x)
  {
    var ws := ElementOffsetWords(x);
    hide NumberAt, Before;
    Steps(ws);
    assert WordAt(b, base, ws, 0) && WordAt(b, base, ws, 1) && WordAt(b, base, ws, 2) && WordAt(b, base, ws, 3);
  }

  ghost predicate StateImage(b: seq<Byte>, base: nat, s: State) {
    && Half(b, base, 0, |s.globals|)
    && Half(b, base, 4, |s.tables|)
    && Half(b, base, 8, |s.tags|)
    && Half(b, base, 12, |s.data|)
    && Half(b, base, 16, |s.elements|)
    && Half(b, base, 20, |s.refs|)
    && Half(b, base, 24, if s.hasDataCount then 1 else 0)
    && Half(b, base, 28, s.dataCount)
  }

  lemma {:induction false} StatePlaced(b: seq<Byte>, base: nat, s: State)
    requires WordsAt(b, base, StateWords(s))
    ensures StateImage(b, base, s)
  {
    var ws := StateWords(s);
    hide NumberAt, Before;
    Steps(ws);
    assert WordAt(b, base, ws, 0) && WordAt(b, base, ws, 1) && WordAt(b, base, ws, 2) && WordAt(b, base, ws, 3)
        && WordAt(b, base, ws, 4) && WordAt(b, base, ws, 5) && WordAt(b, base, ws, 6) && WordAt(b, base, ws, 7);
  }

  // ---------------------------------------------------------------- regions

  /** The bytes `s` are at `at`. */
  ghost predicate Region(b: seq<Byte>, at: nat, s: seq<Byte>) {
    at + |s| <= |b| && b[at..at + |s|] == s
  }

  lemma {:induction false} RegionSplit(b: seq<Byte>, at: nat, s: seq<Byte>, t: seq<Byte>)
    requires Region(b, at, s + t)
    ensures Region(b, at, s) && Region(b, at + |s|, t)
  {
    assert b[at..at + |s|] == (s + t)[..|s|] == s;
    assert b[at + |s|..at + |s| + |t|] == (s + t)[|s|..] == t;
  }

  lemma {:induction false} WordsFound(b: seq<Byte>, at: nat, ws: seq<Word>)
    requires AllInRange(ws) && Region(b, at, PutWords(ws))
    ensures WordsAt(b, at, ws)
  {
    var n := |PutWords(ws)|;
    assert b == b[..at] + PutWords(ws) + b[at + n..];
    WordsPut(b[..at], ws, b[at + n..]);
  }

  /** Record `i` of a list of records of `size` bytes. */
  lemma {:induction false} RecordFound<T>(b: seq<Byte>, at: nat, xs: seq<T>, words: T -> seq<Word>, size: nat, i: nat)
    requires Region(b, at, PutRecords(xs, words)) && i < |xs|
    requires forall k :: 0 <= k < |xs| ==> |PutWords(words(xs[k]))| == size
    ensures Region(b, at + size * i, PutWords(words(xs[i])))
    decreases i
  {
    hide PutWords;
    RegionSplit(b, at, PutWords(words(xs[0])), PutRecords(xs[1..], words));
    if i > 0 {
      assert forall k :: 0 <= k < |xs[1..]| ==> xs[1..][k] == xs[k + 1];
      RecordFound(b, at + size, xs[1..], words, size, i - 1);
      assert size + size * (i - 1) == size * i;
    }
  }

  lemma {:induction false} RecordsSize<T>(xs: seq<T>, words: T -> seq<Word>, size: nat)
    requires forall k :: 0 <= k < |xs| ==> |PutWords(words(xs[k]))| == size
    ensures |PutRecords(xs, words)| == size * |xs|
  {
    hide PutWords;
    if xs != [] {
      assert forall k :: 0 <= k < |xs[1..]| ==> xs[1..][k] == xs[k + 1];
      RecordsSize(xs[1..], words, size);
      assert size + size * (|xs| - 1) == size * |xs|;
    }
  }

  /** The head of a record, and what follows it. */
  lemma {:induction false} HeadFound(b: seq<Byte>, at: nat, ws: seq<Word>, shape: seq<nat>, rest: seq<Byte>)
    requires AllInRange(ws) && Shape(ws) == shape && Region(b, at, PutWords(ws) + rest)
    ensures WordsAt(b, at, ws) && |PutWords(ws)| == Total(shape) && Region(b, at + Total(shape), rest)
  {
    hide PutWords, Region, AllInRange, Shape, WordsAt, Total;
    PutWordsSize(ws);
    RegionSplit(b, at, PutWords(ws), rest);
    WordsFound(b, at, ws);
  }

  function Pick(a: seq<nat>, i: nat): (n: nat) {
    if i < |a| then a[i] else 0
  }

  lemma {:induction false} TotalSum(a: seq<nat>)
    requires |a| <= 13
    ensures Total(a) == Pick(a, 0) + Pick(a, 1) + Pick(a, 2) + Pick(a, 3) + Pick(a, 4) + Pick(a, 5) + Pick(a, 6)
                        + Pick(a, 7) + Pick(a, 8) + Pick(a, 9) + Pick(a, 10) + Pick(a, 11) + Pick(a, 12)
  {
    if a != [] {
      TotalSum(a[1..]);
      assert forall i :: 0 <= i < 13 ==> Pick(a[1..], i) == Pick(a, i + 1);
    }
  }

  /** The sizes of the records. */
  lemma {:induction false} Sizes()
    ensures Total(TYPED) == 24 && Total(FIELD) == 28 && Total(CATCH) == 12 && Total(IMPORT) == 36 && Total(EXPORT) == 20
    ensures Total(MEMORY) == 36 && Total(GLOBAL) == 44 && Total(TABLE) == 64 && Total(TAG) == 8 && Total(DATA) == 36
    ensures Total(ITEM) == 24 && Total(TYPE) == 36 && Total(CONTROL) == 32 && Total(FUNCTION) == 28 && Total(CORE) == 24
    ensures Total(ELEMENT_TYPE) == 32 && Total(ELEMENT_OFFSET) == 20 && Total(STATE) == 32
  {
    hide Total;
    TotalSum(TYPED);
    TotalSum(FIELD);
    TotalSum(CATCH);
    TotalSum(IMPORT);
    TotalSum(EXPORT);
    TotalSum(MEMORY);
    TotalSum(GLOBAL);
    TotalSum(TABLE);
    TotalSum(TAG);
    TotalSum(DATA);
    TotalSum(ITEM);
    TotalSum(TYPE);
    TotalSum(CONTROL);
    TotalSum(FUNCTION);
    TotalSum(CORE);
    TotalSum(ELEMENT_TYPE);
    TotalSum(ELEMENT_OFFSET);
    TotalSum(STATE);
  }

  /** The bytes of the first `i` elements. */
  function Sum<T>(xs: seq<T>, size: T -> nat, i: nat): (n: nat)
    requires i <= |xs|
  {
    if i == 0 then 0 else Sum(xs, size, i - 1) + size(xs[i - 1])
  }

  /** Element `i` of a list of elements of different sizes. */
  lemma {:induction false} ElementFound<T>(b: seq<Byte>, at: nat, xs: seq<T>, put: T -> seq<Byte>, size: T -> nat,
      i: nat)
    requires i <= |xs| && Region(b, at, PutMany(xs, 0, put))
    requires forall k :: 0 <= k < |xs| ==> |put(xs[k])| == size(xs[k])
    ensures Region(b, at + Sum(xs, size, i), PutMany(xs, i, put))
    ensures i < |xs| ==> Region(b, at + Sum(xs, size, i), put(xs[i]))
    decreases i
  {
    if i > 0 {
      ElementFound(b, at, xs, put, size, i - 1);
      RegionSplit(b, at + Sum(xs, size, i - 1), put(xs[i - 1]), PutMany(xs, i, put));
    }
    if i < |xs| {
      RegionSplit(b, at + Sum(xs, size, i), put(xs[i]), PutMany(xs, i + 1, put));
    }
  }

  lemma {:induction false} ElementsSize<T>(xs: seq<T>, put: T -> seq<Byte>, size: T -> nat, i: nat)
    requires i <= |xs| && forall k :: 0 <= k < |xs| ==> |put(xs[k])| == size(xs[k])
    ensures Sum(xs, size, i) + |PutMany(xs, i, put)| == Sum(xs, size, |xs|)
    decreases |xs| - i
  {
    if i < |xs| {
      ElementsSize(xs, put, size, i + 1);
    }
  }

  // ---------------------------------------------------------------- lists of records

  ghost predicate TypedsAt(b: seq<Byte>, at: nat, xs: seq<Typed>) {
    forall k :: 0 <= k < |xs| ==> TypedImage(b, at + 24 * k, xs[k])
  }

  lemma {:induction false} TypedsFound(b: seq<Byte>, at: nat, xs: seq<Typed>)
    requires AllTypedFit(xs) && Region(b, at, PutRecords(xs, TypedWords))
    ensures TypedsAt(b, at, xs) && |PutRecords(xs, TypedWords)| == 24 * |xs|
  {
    hide TypedImage, PutWords, PutRecords, Region, WordsAt, Total;
    Sizes();
    forall k | 0 <= k < |xs|
      ensures AllInRange(TypedWords(xs[k])) && |PutWords(TypedWords(xs[k]))| == 24
    {
      TypedBack(xs[k]);
      PutWordsSize(TypedWords(xs[k]));
    }
    RecordsSize(xs, TypedWords, 24);
    forall k | 0 <= k < |xs|
      ensures TypedImage(b, at + 24 * k, xs[k])
    {
      RecordFound(b, at, xs, TypedWords, 24, k);
      WordsFound(b, at + 24 * k, TypedWords(xs[k]));
      TypedPlaced(b, at + 24 * k, xs[k]);
    }
  }

  ghost predicate FieldsAt(b: seq<Byte>, at: nat, xs: seq<FieldType>) {
    forall k :: 0 <= k < |xs| ==> FieldImage(b, at + 28 * k, xs[k])
  }

  lemma {:induction false} FieldsFound(b: seq<Byte>, at: nat, xs: seq<FieldType>)
    requires AllFieldsFit(xs) && Region(b, at, PutRecords(xs, FieldWords))
    ensures FieldsAt(b, at, xs) && |PutRecords(xs, FieldWords)| == 28 * |xs|
  {
    hide FieldImage, PutWords, PutRecords, Region, WordsAt, Total;
    Sizes();
    forall k | 0 <= k < |xs|
      ensures AllInRange(FieldWords(xs[k])) && |PutWords(FieldWords(xs[k]))| == 28
    {
      FieldBack(xs[k]);
      PutWordsSize(FieldWords(xs[k]));
    }
    RecordsSize(xs, FieldWords, 28);
    forall k | 0 <= k < |xs|
      ensures FieldImage(b, at + 28 * k, xs[k])
    {
      RecordFound(b, at, xs, FieldWords, 28, k);
      WordsFound(b, at + 28 * k, FieldWords(xs[k]));
      FieldPlaced(b, at + 28 * k, xs[k]);
    }
  }

  ghost predicate CatchesAt(b: seq<Byte>, at: nat, xs: seq<Catch>) {
    forall k :: 0 <= k < |xs| ==> CatchImage(b, at + 12 * k, xs[k])
  }

  lemma {:induction false} CatchesFound(b: seq<Byte>, at: nat, xs: seq<Catch>)
    requires AllCatchesFit(xs) && Region(b, at, PutRecords(xs, CatchWords))
    ensures CatchesAt(b, at, xs) && |PutRecords(xs, CatchWords)| == 12 * |xs|
  {
    hide CatchImage, PutWords, PutRecords, Region, WordsAt, Total;
    Sizes();
    forall k | 0 <= k < |xs|
      ensures AllInRange(CatchWords(xs[k])) && |PutWords(CatchWords(xs[k]))| == 12
    {
      CatchBack(xs[k]);
      PutWordsSize(CatchWords(xs[k]));
    }
    RecordsSize(xs, CatchWords, 12);
    forall k | 0 <= k < |xs|
      ensures CatchImage(b, at + 12 * k, xs[k])
    {
      RecordFound(b, at, xs, CatchWords, 12, k);
      WordsFound(b, at + 12 * k, CatchWords(xs[k]));
      CatchPlaced(b, at + 12 * k, xs[k]);
    }
  }

  ghost predicate ImportsAt(b: seq<Byte>, at: nat, xs: seq<Import>) {
    forall k :: 0 <= k < |xs| ==> ImportImage(b, at + 36 * k, xs[k])
  }

  lemma {:induction false} ImportsFound(b: seq<Byte>, at: nat, xs: seq<Import>, source: nat)
    requires AllImportsFit(xs, source) && Region(b, at, PutRecords(xs, ImportWords))
    ensures ImportsAt(b, at, xs) && |PutRecords(xs, ImportWords)| == 36 * |xs|
  {
    hide ImportImage, PutWords, PutRecords, Region, WordsAt, Total;
    Sizes();
    forall k | 0 <= k < |xs|
      ensures AllInRange(ImportWords(xs[k])) && |PutWords(ImportWords(xs[k]))| == 36
    {
      ImportBack(xs[k], source, 0);
      PutWordsSize(ImportWords(xs[k]));
    }
    RecordsSize(xs, ImportWords, 36);
    forall k | 0 <= k < |xs|
      ensures ImportImage(b, at + 36 * k, xs[k])
    {
      RecordFound(b, at, xs, ImportWords, 36, k);
      WordsFound(b, at + 36 * k, ImportWords(xs[k]));
      ImportPlaced(b, at + 36 * k, xs[k]);
    }
  }

  ghost predicate ExportsAt(b: seq<Byte>, at: nat, xs: seq<Export>) {
    forall k :: 0 <= k < |xs| ==> ExportImage(b, at + 20 * k, xs[k])
  }

  lemma {:induction false} ExportsFound(b: seq<Byte>, at: nat, xs: seq<Export>, source: nat)
    requires AllExportsFit(xs, source) && Region(b, at, PutRecords(xs, ExportWords))
    ensures ExportsAt(b, at, xs) && |PutRecords(xs, ExportWords)| == 20 * |xs|
  {
    hide ExportImage, PutWords, PutRecords, Region, WordsAt, Total;
    Sizes();
    forall k | 0 <= k < |xs|
      ensures AllInRange(ExportWords(xs[k])) && |PutWords(ExportWords(xs[k]))| == 20
    {
      ExportBack(xs[k], source);
      PutWordsSize(ExportWords(xs[k]));
    }
    RecordsSize(xs, ExportWords, 20);
    forall k | 0 <= k < |xs|
      ensures ExportImage(b, at + 20 * k, xs[k])
    {
      RecordFound(b, at, xs, ExportWords, 20, k);
      WordsFound(b, at + 20 * k, ExportWords(xs[k]));
      ExportPlaced(b, at + 20 * k, xs[k]);
    }
  }

  ghost predicate MemoriesAt(b: seq<Byte>, at: nat, xs: seq<Mem>) {
    forall k :: 0 <= k < |xs| ==> MemoryImage(b, at + 36 * k, xs[k])
  }

  lemma {:induction false} MemoriesFound(b: seq<Byte>, at: nat, xs: seq<Mem>)
    requires AllMemoriesFit(xs) && Region(b, at, PutRecords(xs, MemoryWords))
    ensures MemoriesAt(b, at, xs) && |PutRecords(xs, MemoryWords)| == 36 * |xs|
  {
    hide MemoryImage, PutWords, PutRecords, Region, WordsAt, Total;
    Sizes();
    forall k | 0 <= k < |xs|
      ensures AllInRange(MemoryWords(xs[k])) && |PutWords(MemoryWords(xs[k]))| == 36
    {
      MemoryBack(xs[k]);
      PutWordsSize(MemoryWords(xs[k]));
    }
    RecordsSize(xs, MemoryWords, 36);
    forall k | 0 <= k < |xs|
      ensures MemoryImage(b, at + 36 * k, xs[k])
    {
      RecordFound(b, at, xs, MemoryWords, 36, k);
      WordsFound(b, at + 36 * k, MemoryWords(xs[k]));
      MemoryPlaced(b, at + 36 * k, xs[k]);
    }
  }

  ghost predicate GlobalsAt(b: seq<Byte>, at: nat, xs: seq<Global>) {
    forall k :: 0 <= k < |xs| ==> GlobalImage(b, at + 44 * k, xs[k])
  }

  lemma {:induction false} GlobalsFound(b: seq<Byte>, at: nat, xs: seq<Global>, source: nat)
    requires AllGlobalsFit(xs, source) && Region(b, at, PutRecords(xs, GlobalWords))
    ensures GlobalsAt(b, at, xs) && |PutRecords(xs, GlobalWords)| == 44 * |xs|
  {
    hide GlobalImage, PutWords, PutRecords, Region, WordsAt, Total;
    Sizes();
    forall k | 0 <= k < |xs|
      ensures AllInRange(GlobalWords(xs[k])) && |PutWords(GlobalWords(xs[k]))| == 44
    {
      GlobalBack(xs[k], source);
      PutWordsSize(GlobalWords(xs[k]));
    }
    RecordsSize(xs, GlobalWords, 44);
    forall k | 0 <= k < |xs|
      ensures GlobalImage(b, at + 44 * k, xs[k])
    {
      RecordFound(b, at, xs, GlobalWords, 44, k);
      WordsFound(b, at + 44 * k, GlobalWords(xs[k]));
      GlobalPlaced(b, at + 44 * k, xs[k]);
    }
  }

  ghost predicate TablesAt(b: seq<Byte>, at: nat, xs: seq<Table>) {
    forall k :: 0 <= k < |xs| ==> TableImage(b, at + 64 * k, xs[k])
  }

  lemma {:induction false} TablesFound(b: seq<Byte>, at: nat, xs: seq<Table>, source: nat)
    requires AllTablesFit(xs, source) && Region(b, at, PutRecords(xs, TableWords))
    ensures TablesAt(b, at, xs) && |PutRecords(xs, TableWords)| == 64 * |xs|
  {
    hide TableImage, PutWords, PutRecords, Region, WordsAt, Total;
    Sizes();
    forall k | 0 <= k < |xs|
      ensures AllInRange(TableWords(xs[k])) && |PutWords(TableWords(xs[k]))| == 64
    {
      TableBack(xs[k], source);
      PutWordsSize(TableWords(xs[k]));
    }
    RecordsSize(xs, TableWords, 64);
    forall k | 0 <= k < |xs|
      ensures TableImage(b, at + 64 * k, xs[k])
    {
      RecordFound(b, at, xs, TableWords, 64, k);
      WordsFound(b, at + 64 * k, TableWords(xs[k]));
      TablePlaced(b, at + 64 * k, xs[k]);
    }
  }

  ghost predicate TagsAt(b: seq<Byte>, at: nat, xs: seq<Tag>) {
    forall k :: 0 <= k < |xs| ==> TagImage(b, at + 8 * k, xs[k])
  }

  lemma {:induction false} TagsFound(b: seq<Byte>, at: nat, xs: seq<Tag>)
    requires AllTagsFit(xs) && Region(b, at, PutRecords(xs, TagWords))
    ensures TagsAt(b, at, xs) && |PutRecords(xs, TagWords)| == 8 * |xs|
  {
    hide TagImage, PutWords, PutRecords, Region, WordsAt, Total;
    Sizes();
    forall k | 0 <= k < |xs|
      ensures AllInRange(TagWords(xs[k])) && |PutWords(TagWords(xs[k]))| == 8
    {
      TagBack(xs[k]);
      PutWordsSize(TagWords(xs[k]));
    }
    RecordsSize(xs, TagWords, 8);
    forall k | 0 <= k < |xs|
      ensures TagImage(b, at + 8 * k, xs[k])
    {
      RecordFound(b, at, xs, TagWords, 8, k);
      WordsFound(b, at + 8 * k, TagWords(xs[k]));
      TagPlaced(b, at + 8 * k, xs[k]);
    }
  }

  ghost predicate DataSegmentsAt(b: seq<Byte>, at: nat, xs: seq<DataSegment>) {
    forall k :: 0 <= k < |xs| ==> DataImage(b, at + 36 * k, xs[k])
  }

  lemma {:induction false} DataSegmentsFound(b: seq<Byte>, at: nat, xs: seq<DataSegment>, source: nat)
    requires AllDataFit(xs, source) && Region(b, at, PutRecords(xs, DataWords))
    ensures DataSegmentsAt(b, at, xs) && |PutRecords(xs, DataWords)| == 36 * |xs|
  {
    hide DataImage, PutWords, PutRecords, Region, WordsAt, Total;
    Sizes();
    forall k | 0 <= k < |xs|
      ensures AllInRange(DataWords(xs[k])) && |PutWords(DataWords(xs[k]))| == 36
    {
      DataBack(xs[k], source);
      PutWordsSize(DataWords(xs[k]));
    }
    RecordsSize(xs, DataWords, 36);
    forall k | 0 <= k < |xs|
      ensures DataImage(b, at + 36 * k, xs[k])
    {
      RecordFound(b, at, xs, DataWords, 36, k);
      WordsFound(b, at + 36 * k, DataWords(xs[k]));
      DataPlaced(b, at + 36 * k, xs[k]);
    }
  }

  ghost predicate ItemsAt(b: seq<Byte>, at: nat, xs: seq<Item>) {
    forall k :: 0 <= k < |xs| ==> ItemImage(b, at + 24 * k, xs[k])
  }

  lemma {:induction false} ItemsFound(b: seq<Byte>, at: nat, xs: seq<Item>, source: nat)
    requires AllItemsFit(xs, source) && Region(b, at, PutRecords(xs, ItemWords))
    ensures ItemsAt(b, at, xs) && |PutRecords(xs, ItemWords)| == 24 * |xs|
  {
    hide ItemImage, PutWords, PutRecords, Region, WordsAt, Total;
    Sizes();
    forall k | 0 <= k < |xs|
      ensures AllInRange(ItemWords(xs[k])) && |PutWords(ItemWords(xs[k]))| == 24
    {
      ItemBack(xs[k], source);
      PutWordsSize(ItemWords(xs[k]));
    }
    RecordsSize(xs, ItemWords, 24);
    forall k | 0 <= k < |xs|
      ensures ItemImage(b, at + 24 * k, xs[k])
    {
      RecordFound(b, at, xs, ItemWords, 24, k);
      WordsFound(b, at + 24 * k, ItemWords(xs[k]));
      ItemPlaced(b, at + 24 * k, xs[k]);
    }
  }

  // ---------------------------------------------------------------- types, functions and elements

  function TypeSize(t: FuncType): (n: nat) {
    36 + 24 * |t.params| + 24 * |t.results| + 28 * |t.fields|
  }

  /** A type: 36 bytes, its parameters, its results, its fields. */
  ghost predicate TypeAt(b: seq<Byte>, at: nat, t: FuncType) {
    && TypeImage(b, at, t) && TypedsAt(b, at + 36, t.params) && TypedsAt(b, at + 36 + 24 * |t.params|, t.results)
    && FieldsAt(b, at + 36 + 24 * |t.params| + 24 * |t.results|, t.fields)
  }

  lemma {:induction false} TypeFound(b: seq<Byte>, at: nat, t: FuncType)
    requires TypeFits(t) && Region(b, at, PutType(t))
    ensures TypeAt(b, at, t) && |PutType(t)| == TypeSize(t)
  {
    hide TypeWords, TypeImage, TypedsAt, FieldsAt, PutWords, PutRecords, AllTypedFit, AllFieldsFit, Region, Total;
    hide AllInRange, Shape, Values, LayoutSound, WordsAt;
    TypeHead(t, 0, 0);
    Sizes();
    var ps, rs, fs := PutRecords(t.params, TypedWords), PutRecords(t.results, TypedWords),
      PutRecords(t.fields, FieldWords);
    HeadFound(b, at, TypeWords(t), TYPE, ps + (rs + fs));
    TypePlaced(b, at, t);
    RegionSplit(b, at + 36, ps, rs + fs);
    TypedsFound(b, at + 36, t.params);
    RegionSplit(b, at + 36 + |ps|, rs, fs);
    TypedsFound(b, at + 36 + |ps|, t.results);
    FieldsFound(b, at + 36 + |ps| + |rs|, t.fields);
  }

  function ControlSize(c: Control): (n: nat) {
    32 + 12 * |c.catches|
  }

  ghost predicate ControlAt(b: seq<Byte>, at: nat, c: Control) {
    ControlImage(b, at, c) && CatchesAt(b, at + 32, c.catches)
  }

  lemma {:induction false} ControlFound(b: seq<Byte>, at: nat, c: Control)
    requires ControlFits(c) && Region(b, at, PutControl(c))
    ensures ControlAt(b, at, c) && |PutControl(c)| == ControlSize(c)
  {
    hide ControlWords, ControlImage, CatchesAt, PutWords, PutRecords, AllCatchesFit, Region, AllInRange, Shape;
    hide Values, ControlSound, Total, WordsAt;
    ControlHead(c, 0);
    Sizes();
    HeadFound(b, at, ControlWords(c), CONTROL, PutRecords(c.catches, CatchWords));
    ControlPlaced(b, at, c);
    CatchesFound(b, at + 32, c.catches);
  }

  /** The size of what is written does not depend on where it is. */
  lemma {:induction false} ControlsMeasured(xs: seq<Control>)
    requires AllControlsFit(xs)
    ensures forall k :: 0 <= k < |xs| ==> |PutControl(xs[k])| == ControlSize(xs[k])
  {
    hide PutControl, ControlSize, ControlFits, ControlAt;
    forall k | 0 <= k < |xs|
      ensures |PutControl(xs[k])| == ControlSize(xs[k])
    {
      RegionSelf(PutControl(xs[k]));
      ControlFound(PutControl(xs[k]), 0, xs[k]);
    }
  }

  lemma {:induction false} RegionSelf(s: seq<Byte>)
    ensures Region(s, 0, s)
  {
  }

  ghost predicate ControlsAt(b: seq<Byte>, at: nat, xs: seq<Control>) {
    forall k :: 0 <= k < |xs| ==> ControlAt(b, at + Sum(xs, ControlSize, k), xs[k])
  }

  lemma {:induction false} ControlsFound(b: seq<Byte>, at: nat, xs: seq<Control>)
    requires AllControlsFit(xs) && Region(b, at, PutControls(xs))
    ensures ControlsAt(b, at, xs) && |PutControls(xs)| == Sum(xs, ControlSize, |xs|)
  {
    hide PutControl, ControlSize, ControlFits, ControlAt, Region;
    ControlsMeasured(xs);
    ElementsSize(xs, PutControl, ControlSize, 0);
    forall k | 0 <= k < |xs|
      ensures ControlAt(b, at + Sum(xs, ControlSize, k), xs[k])
    {
      ElementFound(b, at, xs, PutControl, ControlSize, k);
      ControlFound(b, at + Sum(xs, ControlSize, k), xs[k]);
    }
  }

  function FunctionSize(x: Function): (n: nat) {
    28 + 24 * |x.locals| + Sum(x.controls, ControlSize, |x.controls|)
  }

  /** A function: 28 bytes, its locals, its control annotations. */
  ghost predicate FunctionAt(b: seq<Byte>, at: nat, x: Function) {
    FunctionImage(b, at, x) && TypedsAt(b, at + 28, x.locals) && ControlsAt(b, at + 28 + 24 * |x.locals|, x.controls)
  }

  lemma {:induction false} FunctionFound(b: seq<Byte>, at: nat, x: Function, source: nat)
    requires FunctionFits(x, source) && Region(b, at, PutFunction(x))
    ensures FunctionAt(b, at, x) && |PutFunction(x)| == FunctionSize(x)
  {
    hide FunctionWords, FunctionImage, TypedsAt, ControlsAt, PutWords, PutRecords, PutControls, AllTypedFit, Region;
    hide AllControlsFit, AllInRange, Shape, Values, FunctionSound, SpanFrom, SpanFits, Sum, Total, WordsAt;
    FunctionHead(x, 0, source);
    Sizes();
    var ls, cs := PutRecords(x.locals, TypedWords), PutControls(x.controls);
    HeadFound(b, at, FunctionWords(x), FUNCTION, ls + cs);
    FunctionPlaced(b, at, x);
    RegionSplit(b, at + 28, ls, cs);
    TypedsFound(b, at + 28, x.locals);
    ControlsFound(b, at + 28 + |ls|, x.controls);
  }

  function ElementSize(x: Element): (n: nat) {
    52 + 24 * |x.items|
  }

  /** An element segment: what it is, where it goes, its items. */
  ghost predicate ElementAt(b: seq<Byte>, at: nat, x: Element) {
    ElementTypeImage(b, at, x) && ElementOffsetImage(b, at + 32, x) && ItemsAt(b, at + 52, x.items)
  }

  lemma {:induction false} SegmentFound(b: seq<Byte>, at: nat, x: Element, source: nat)
    requires ElementFits(x, source) && Region(b, at, PutElement(x))
    ensures ElementAt(b, at, x) && |PutElement(x)| == ElementSize(x)
  {
    hide ElementTypeWords, ElementOffsetWords, ElementTypeImage, ElementOffsetImage, ItemsAt, PutWords, PutRecords;
    hide AllItemsFit, Region, AllInRange, Shape, Values, ElementTypeSound, ElementOffsetSound, SpanFrom, SpanFits;
    hide ValueFrom, ValueGood, Total, WordsAt;
    ElementTypeHead(x, source);
    ElementOffsetHead(x, source);
    Sizes();
    var gs, items := PutWords(ElementOffsetWords(x)), PutRecords(x.items, ItemWords);
    HeadFound(b, at, ElementTypeWords(x), ELEMENT_TYPE, gs + items);
    ElementTypePlaced(b, at, x);
    HeadFound(b, at + 32, ElementOffsetWords(x), ELEMENT_OFFSET, items);
    ElementOffsetPlaced(b, at + 32, x);
    ItemsFound(b, at + 52, x.items, source);
  }

  ghost predicate TypesAt(b: seq<Byte>, at: nat, xs: seq<FuncType>) {
    forall k :: 0 <= k < |xs| ==> TypeAt(b, at + Sum(xs, TypeSize, k), xs[k])
  }

  lemma {:induction false} TypesMeasured(xs: seq<FuncType>)
    requires AllTypesFit(xs)
    ensures forall k :: 0 <= k < |xs| ==> |PutType(xs[k])| == TypeSize(xs[k])
  {
    hide PutType, TypeSize, TypeFits, TypeAt;
    forall k | 0 <= k < |xs|
      ensures |PutType(xs[k])| == TypeSize(xs[k])
    {
      RegionSelf(PutType(xs[k]));
      TypeFound(PutType(xs[k]), 0, xs[k]);
    }
  }

  lemma {:induction false} TypesFound(b: seq<Byte>, at: nat, xs: seq<FuncType>)
    requires AllTypesFit(xs) && Region(b, at, PutMany(xs, 0, PutType))
    ensures TypesAt(b, at, xs) && |PutMany(xs, 0, PutType)| == Sum(xs, TypeSize, |xs|)
  {
    hide PutType, TypeSize, TypeFits, TypeAt, Region;
    TypesMeasured(xs);
    ElementsSize(xs, PutType, TypeSize, 0);
    forall k | 0 <= k < |xs|
      ensures TypeAt(b, at + Sum(xs, TypeSize, k), xs[k])
    {
      ElementFound(b, at, xs, PutType, TypeSize, k);
      TypeFound(b, at + Sum(xs, TypeSize, k), xs[k]);
    }
  }

  ghost predicate FunctionsAt(b: seq<Byte>, at: nat, xs: seq<Function>) {
    forall k :: 0 <= k < |xs| ==> FunctionAt(b, at + Sum(xs, FunctionSize, k), xs[k])
  }

  lemma {:induction false} FunctionsMeasured(xs: seq<Function>, source: nat)
    requires AllFunctionsFit(xs, source)
    ensures forall k :: 0 <= k < |xs| ==> |PutFunction(xs[k])| == FunctionSize(xs[k])
  {
    hide PutFunction, FunctionSize, FunctionFits, FunctionAt;
    forall k | 0 <= k < |xs|
      ensures |PutFunction(xs[k])| == FunctionSize(xs[k])
    {
      RegionSelf(PutFunction(xs[k]));
      FunctionFound(PutFunction(xs[k]), 0, xs[k], source);
    }
  }

  lemma {:induction false} FunctionsFound(b: seq<Byte>, at: nat, xs: seq<Function>, source: nat)
    requires AllFunctionsFit(xs, source) && Region(b, at, PutMany(xs, 0, PutFunction))
    ensures FunctionsAt(b, at, xs) && |PutMany(xs, 0, PutFunction)| == Sum(xs, FunctionSize, |xs|)
  {
    hide PutFunction, FunctionSize, FunctionFits, FunctionAt, Region;
    FunctionsMeasured(xs, source);
    ElementsSize(xs, PutFunction, FunctionSize, 0);
    forall k | 0 <= k < |xs|
      ensures FunctionAt(b, at + Sum(xs, FunctionSize, k), xs[k])
    {
      ElementFound(b, at, xs, PutFunction, FunctionSize, k);
      FunctionFound(b, at + Sum(xs, FunctionSize, k), xs[k], source);
    }
  }

  ghost predicate ElementsAt(b: seq<Byte>, at: nat, xs: seq<Element>) {
    forall k :: 0 <= k < |xs| ==> ElementAt(b, at + Sum(xs, ElementSize, k), xs[k])
  }

  lemma {:induction false} ElementsMeasured(xs: seq<Element>, source: nat)
    requires AllElementsFit(xs, source)
    ensures forall k :: 0 <= k < |xs| ==> |PutElement(xs[k])| == ElementSize(xs[k])
  {
    hide PutElement, ElementSize, ElementFits, ElementAt;
    forall k | 0 <= k < |xs|
      ensures |PutElement(xs[k])| == ElementSize(xs[k])
    {
      RegionSelf(PutElement(xs[k]));
      SegmentFound(PutElement(xs[k]), 0, xs[k], source);
    }
  }

  lemma {:induction false} ElementsFound(b: seq<Byte>, at: nat, xs: seq<Element>, source: nat)
    requires AllElementsFit(xs, source) && Region(b, at, PutMany(xs, 0, PutElement))
    ensures ElementsAt(b, at, xs) && |PutMany(xs, 0, PutElement)| == Sum(xs, ElementSize, |xs|)
  {
    hide PutElement, ElementSize, ElementFits, ElementAt, Region;
    ElementsMeasured(xs, source);
    ElementsSize(xs, PutElement, ElementSize, 0);
    forall k | 0 <= k < |xs|
      ensures ElementAt(b, at + Sum(xs, ElementSize, k), xs[k])
    {
      ElementFound(b, at, xs, PutElement, ElementSize, k);
      SegmentFound(b, at + Sum(xs, ElementSize, k), xs[k], source);
    }
  }

  // ---------------------------------------------------------------- the two metadata sections

  /** Core metadata: 24 bytes, the types, the functions, the imports, the exports,
      the memories. */
  ghost predicate CoreAt(b: seq<Byte>, at: nat, c: Core) {
    var functions := at + 24 + Sum(c.types, TypeSize, |c.types|);
    var imports := functions + Sum(c.functions, FunctionSize, |c.functions|);
    var exports := imports + 36 * |c.imports|;
    && CoreImage(b, at, c) && TypesAt(b, at + 24, c.types) && FunctionsAt(b, functions, c.functions)
    && ImportsAt(b, imports, c.imports) && ExportsAt(b, exports, c.exports)
    && MemoriesAt(b, exports + 20 * |c.exports|, c.memories)
  }

  lemma {:induction false} CoreFound(b: seq<Byte>, at: nat, c: Core, source: nat)
    requires CoreFits(c, source) && Region(b, at, PutCore(c))
    ensures CoreAt(b, at, c)
  {
    hide CoreWords, CoreImage, TypesAt, FunctionsAt, ImportsAt, ExportsAt, MemoriesAt, PutWords, PutRecords, PutMany;
    hide AllTypesFit, AllFunctionsFit, AllImportsFit, AllExportsFit, AllMemoriesFit, Region, AllInRange, Shape, Values;
    hide Total, WordsAt, Sum;
    CoreHead(c, source);
    Sizes();
    var ts, fs, xs, es, ms := PutTypes(c.types), PutFunctions(c.functions), PutRecords(c.imports, ImportWords),
      PutRecords(c.exports, ExportWords), PutRecords(c.memories, MemoryWords);
    HeadFound(b, at, CoreWords(c), CORE, ts + (fs + (xs + (es + ms))));
    CorePlaced(b, at, c);
    RegionSplit(b, at + 24, ts, fs + (xs + (es + ms)));
    TypesFound(b, at + 24, c.types);
    RegionSplit(b, at + 24 + |ts|, fs, xs + (es + ms));
    FunctionsFound(b, at + 24 + |ts|, c.functions, source);
    RegionSplit(b, at + 24 + |ts| + |fs|, xs, es + ms);
    ImportsFound(b, at + 24 + |ts| + |fs|, c.imports, source);
    RegionSplit(b, at + 24 + |ts| + |fs| + |xs|, es, ms);
    ExportsFound(b, at + 24 + |ts| + |fs| + |xs|, c.exports, source);
    MemoriesFound(b, at + 24 + |ts| + |fs| + |xs| + |es|, c.memories);
  }

  /** State metadata: 32 bytes, the globals, the tables, the tags, the data
      segments, the element segments, the declared function references. */
  ghost predicate StateAt(b: seq<Byte>, at: nat, s: State) {
    var tables := at + 32 + 44 * |s.globals|;
    var tags := tables + 64 * |s.tables|;
    var data := tags + 8 * |s.tags|;
    var elements := data + 36 * |s.data|;
    && StateImage(b, at, s) && GlobalsAt(b, at + 32, s.globals) && TablesAt(b, tables, s.tables)
    && TagsAt(b, tags, s.tags)
    && DataSegmentsAt(b, data, s.data) && ElementsAt(b, elements, s.elements)
    && Region(b, elements + Sum(s.elements, ElementSize, |s.elements|), s.refs)
  }

  lemma {:induction false} StateFound(b: seq<Byte>, at: nat, s: State, source: nat)
    requires StateFits(s, source) && Region(b, at, PutState(s))
    ensures StateAt(b, at, s)
  {
    hide StateWords, StateImage, GlobalsAt, TablesAt, TagsAt, DataSegmentsAt, ElementsAt, PutWords, PutRecords, PutMany;
    hide AllGlobalsFit, AllTablesFit, AllTagsFit, AllDataFit, AllElementsFit, Region, AllInRange, Shape, Values;
    hide Total, WordsAt, Sum;
    StateHead(s, source);
    Sizes();
    var gs, ts, ps, ds, es := PutRecords(s.globals, GlobalWords), PutRecords(s.tables, TableWords),
      PutRecords(s.tags, TagWords), PutRecords(s.data, DataWords), PutElements(s.elements);
    HeadFound(b, at, StateWords(s), STATE, gs + (ts + (ps + (ds + (es + s.refs)))));
    StatePlaced(b, at, s);
    RegionSplit(b, at + 32, gs, ts + (ps + (ds + (es + s.refs))));
    GlobalsFound(b, at + 32, s.globals, source);
    RegionSplit(b, at + 32 + |gs|, ts, ps + (ds + (es + s.refs)));
    TablesFound(b, at + 32 + |gs|, s.tables, source);
    RegionSplit(b, at + 32 + |gs| + |ts|, ps, ds + (es + s.refs));
    TagsFound(b, at + 32 + |gs| + |ts|, s.tags);
    RegionSplit(b, at + 32 + |gs| + |ts| + |ps|, ds, es + s.refs);
    DataSegmentsFound(b, at + 32 + |gs| + |ts| + |ps|, s.data, source);
    RegionSplit(b, at + 32 + |gs| + |ts| + |ps| + |ds|, es, s.refs);
    ElementsFound(b, at + 32 + |gs| + |ts| + |ps| + |ds|, s.elements, source);
  }

  // ---------------------------------------------------------------- the file

  ghost predicate ImportCountsImage(b: seq<Byte>, base: nat, s: Summary) {
    && Half(b, base, 0, s.mask)
    && Full(b, base, 4, s.custom)
    && Half(b, base, 12, s.types)
    && Half(b, base, 16, s.imported.functions)
    && Half(b, base, 20, s.imported.tables)
    && Half(b, base, 24, s.imported.memories)
    && Half(b, base, 28, s.imported.globals)
    && Half(b, base, 32, s.imported.tags)
  }

  lemma {:induction false} ImportCountsPlaced(b: seq<Byte>, base: nat, s: Summary)
    requires WordsAt(b, base, ImportCounts(s))
    ensures ImportCountsImage(b, base, s)
  {
    var ws := ImportCounts(s);
    hide NumberAt, Before;
    Steps(ws);
    assert WordAt(b, base, ws, 0) && WordAt(b, base, ws, 1) && WordAt(b, base, ws, 2) && WordAt(b, base, ws, 3)
        && WordAt(b, base, ws, 4) && WordAt(b, base, ws, 5) && WordAt(b, base, ws, 6) && WordAt(b, base, ws, 7);
  }

  ghost predicate ItemCountsImage(b: seq<Byte>, base: nat, s: Summary) {
    && Half(b, base, 0, s.defined.functions)
    && Half(b, base, 4, s.defined.tables)
    && Half(b, base, 8, s.defined.memories)
    && Half(b, base, 12, s.defined.globals)
    && Half(b, base, 16, s.defined.tags)
    && Half(b, base, 20, s.code)
    && Half(b, base, 24, s.exports)
    && Half(b, base, 28, s.elements)
  }

  lemma {:induction false} ItemCountsPlaced(b: seq<Byte>, base: nat, s: Summary)
    requires WordsAt(b, base, ItemCounts(s))
    ensures ItemCountsImage(b, base, s)
  {
    var ws := ItemCounts(s);
    hide NumberAt, Before;
    Steps(ws);
    assert WordAt(b, base, ws, 0) && WordAt(b, base, ws, 1) && WordAt(b, base, ws, 2) && WordAt(b, base, ws, 3)
        && WordAt(b, base, ws, 4) && WordAt(b, base, ws, 5) && WordAt(b, base, ws, 6) && WordAt(b, base, ws, 7);
  }

  ghost predicate FlagCountsImage(b: seq<Byte>, base: nat, s: Summary) {
    && Half(b, base, 0, if s.hasStart then 1 else 0)
    && Half(b, base, 4, s.start)
    && Half(b, base, 8, if s.hasDataCount then 1 else 0)
    && Half(b, base, 12, s.dataCount)
    && Half(b, base, 16, s.dataSegments)
  }

  lemma {:induction false} FlagCountsPlaced(b: seq<Byte>, base: nat, s: Summary)
    requires WordsAt(b, base, FlagCounts(s))
    ensures FlagCountsImage(b, base, s)
  {
    var ws := FlagCounts(s);
    hide NumberAt, Before;
    Steps(ws);
    assert WordAt(b, base, ws, 0) && WordAt(b, base, ws, 1) && WordAt(b, base, ws, 2) && WordAt(b, base, ws, 3)
        && WordAt(b, base, ws, 4);
  }

  ghost predicate SummaryAt(b: seq<Byte>, at: nat, s: Summary) {
    ImportCountsImage(b, at, s) && ItemCountsImage(b, at + 36, s) && FlagCountsImage(b, at + 68, s)
  }

  lemma {:induction false} SummaryFound(b: seq<Byte>, at: nat, s: Summary)
    requires SummaryFits(s) && Region(b, at, PutSummary(s))
    ensures SummaryAt(b, at, s)
  {
    SummaryShapes(s);
    hide ImportCounts, ItemCounts, FlagCounts, ImportCountsImage, ItemCountsImage, FlagCountsImage, PutWords, Region;
    hide AllInRange, Shape, Total, WordsAt;
    Totals(SUMMARY_IMPORTS);
    Totals(SUMMARY_ITEMS);
    var p, q, r := PutWords(ImportCounts(s)), PutWords(ItemCounts(s)), PutWords(FlagCounts(s));
    HeadFound(b, at, ImportCounts(s), SUMMARY_IMPORTS, q + r);
    ImportCountsPlaced(b, at, s);
    HeadFound(b, at + 36, ItemCounts(s), SUMMARY_ITEMS, r);
    ItemCountsPlaced(b, at + 36, s);
    WordsFound(b, at + 68, FlagCounts(s));
    FlagCountsPlaced(b, at + 68, s);
  }

  /** A section: its kind, its size, its body. */
  ghost predicate SectionAt(b: seq<Byte>, at: nat, kind: nat, body: seq<Byte>) {
    Half(b, at, 0, kind) && Half(b, at, 4, |body|) && Region(b, at + 8, body)
  }

  lemma {:induction false} SectionFound(b: seq<Byte>, at: nat, kind: nat, body: seq<Byte>)
    requires kind <= MAX32 && |body| <= MAX32 && Region(b, at, PutSection(kind, body))
    ensures SectionAt(b, at, kind, body)
  {
    var ws := [U32(kind), U32(|body|)];
    assert Shape(ws) == [4, 4] && AllInRange(ws);
    hide PutWords, Region, AllInRange, Shape, Total, NumberAt, Before;
    Totals([4, 4]);
    HeadFound(b, at, ws, [4, 4], body);
    Steps(ws);
    assert WordAt(b, at, ws, 0) && WordAt(b, at, ws, 1);
  }

  /** The 72 bytes of the header. */
  ghost predicate HeaderAt(b: seq<Byte>, source: seq<Byte>, digest: seq<Byte>) {
    && Region(b, 0, [84, 87, 86, 65])
    && Half(b, 0, 4, 2)
    && Half(b, 0, 8, 72)
    && Half(b, 0, 12, 3)
    && Full(b, 0, 16, 32767)
    && Full(b, 0, 24, |source|)
    && Region(b, 32, digest)
    && Half(b, 0, 64, 4)
    && Half(b, 0, 68, 0)
  }

  lemma {:induction false} HeaderFound(b: seq<Byte>, m: Mod, hash: Hash)
    requires |hash(m.source)| == DIGEST_SIZE && |m.source| <= MAX64 && Region(b, 0, PutHeader(HeaderOf(m, hash)))
    ensures HeaderAt(b, m.source, hash(m.source))
  {
    var h := HeaderOf(m, hash);
    HeaderValues(h);
    HeaderSound(h, b);
    hide PutWords, Region, AllInRange, Shape, Total, NumberAt, Before, HeaderWords;
    Totals(HEADER_WORDS);
    Totals([4, 4]);
    var us := [U32(h.sections), U32(h.reserved)];
    var p, q := PutWords(HeaderWords(h)), PutWords(us);
    RegionSplit(b, 0, MAGIC, p + (h.digest + q));
    HeadFound(b, 4, HeaderWords(h), HEADER_WORDS, h.digest + q);
    HeaderPlaced(b, h);
    RegionSplit(b, 32, h.digest, q);
    WordsFound(b, 64, us);
    Steps(us);
    assert WordAt(b, 64, us, 0) && WordAt(b, 64, us, 1);
  }

  lemma {:induction false} HeaderSound(h: Header, b: seq<Byte>)
    requires h.schema <= MAX32 && h.headerSize <= MAX32 && h.flags <= MAX32 && h.fingerprint <= MAX64
    requires h.sourceSize <= MAX64
    ensures AllInRange(HeaderWords(h))
  {
  }

  lemma {:induction false} HeaderPlaced(b: seq<Byte>, h: Header)
    requires WordsAt(b, 4, HeaderWords(h))
    ensures Half(b, 0, 4, h.schema) && Half(b, 0, 8, h.headerSize) && Half(b, 0, 12, h.flags)
    ensures Full(b, 0, 16, h.fingerprint) && Full(b, 0, 24, h.sourceSize)
  {
    var ws := HeaderWords(h);
    hide NumberAt, Before;
    Steps(ws);
    assert WordAt(b, 4, ws, 0) && WordAt(b, 4, ws, 1) && WordAt(b, 4, ws, 2) && WordAt(b, 4, ws, 3)
        && WordAt(b, 4, ws, 4);
  }

  /** The two small parts at the front. */
  ghost predicate FrontAt(b: seq<Byte>, m: Mod, hash: Hash) {
    && HeaderAt(b, m.source, hash(m.source))
    && Half(b, 72, 0, 1) && Half(b, 72, 4, 88) && SummaryAt(b, 80, m.summary)
  }

  /** The metadata, of `n` and `k` bytes. */
  ghost predicate MetadataAt(b: seq<Byte>, m: Mod, n: nat, k: nat) {
    && Half(b, 168, 0, 2) && Half(b, 168, 4, n) && CoreAt(b, 176, m.core)
    && Half(b, 176 + n, 0, 3) && Half(b, 176 + n, 4, k) && StateAt(b, 184 + n, m.state)
  }

  /** The digest of all that is before the seal at `at`. */
  ghost predicate SealAt(b: seq<Byte>, hash: Hash, at: nat) {
    at <= |b| && Half(b, at, 0, 4) && Half(b, at, 4, 32) && Region(b, at + 8, hash(b[..at]))
  }

  lemma {:induction false} FrontFound(b: seq<Byte>, m: Mod, hash: Hash, rest: seq<Byte>)
    requires |hash(m.source)| == DIGEST_SIZE && Writable(m)
    requires Region(b, 0, PutHeader(HeaderOf(m, hash)) + (PutSection(SUMMARY_SECTION, PutSummary(m.summary)) + rest))
    ensures FrontAt(b, m, hash) && Region(b, 168, rest)
  {
    hide PutHeader, PutSummary, PutCore, PutState, PutSection, HeaderAt, SummaryAt, Half, Region, CoreFits, StateFits;
    hide SummaryFits;
    var h, s := PutHeader(HeaderOf(m, hash)), PutSummary(m.summary);
    HeaderSize(HeaderOf(m, hash));
    SummarySize(m.summary);
    SectionSize(SUMMARY_SECTION, s);
    RegionSplit(b, 0, h, PutSection(SUMMARY_SECTION, s) + rest);
    HeaderFound(b, m, hash);
    RegionSplit(b, 72, PutSection(SUMMARY_SECTION, s), rest);
    SectionFound(b, 72, SUMMARY_SECTION, s);
    SummaryFound(b, 80, m.summary);
  }

  lemma {:induction false} MetadataFound(b: seq<Byte>, m: Mod)
    requires Writable(m)
    requires Region(b, 168, PutSection(CORE_SECTION, PutCore(m.core)) + PutSection(STATE_SECTION, PutState(m.state)))
    ensures MetadataAt(b, m, |PutCore(m.core)|, |PutState(m.state)|)
  {
    hide PutCore, PutState, PutSection, CoreAt, StateAt, Half, Region, CoreFits, StateFits, SummaryFits;
    var c, t := PutCore(m.core), PutState(m.state);
    SectionSize(CORE_SECTION, c);
    RegionSplit(b, 168, PutSection(CORE_SECTION, c), PutSection(STATE_SECTION, t));
    SectionFound(b, 168, CORE_SECTION, c);
    CoreFound(b, 176, m.core, |m.source|);
    SectionFound(b, 176 + |c|, STATE_SECTION, t);
    StateFound(b, 184 + |c|, m.state, |m.source|);
  }

  /** An artifact byte by byte: the header, the summary at 80, the core metadata at
      176, the state metadata behind it, and the digest of all that at the end. */
  lemma {:induction false} ArtifactAt(m: Mod, hash: Hash)
    requires Digest(hash) && Writable(m)
    ensures var b := Artifact(m, hash); var n, k := |PutCore(m.core)|, |PutState(m.state)|;
            && |b| == 224 + n + k && FrontAt(b, m, hash) && MetadataAt(b, m, n, k) && SealAt(b, hash, 184 + n + k)
  {
    hide PutHeader, PutSummary, PutCore, PutState, PutSection, FrontAt, MetadataAt, Half, Region, Writable;
    var b, p := Artifact(m, hash), Prefix(m, hash);
    MeasuredSize(m, hash);
    RegionSelf(b);
    RegionSplit(b, 0, p, PutSection(SEAL_SECTION, hash(p)));
    FrontFound(b, m, hash,
      PutSection(CORE_SECTION, PutCore(m.core)) + PutSection(STATE_SECTION, PutState(m.state)));
    MetadataFound(b, m);
    SectionFound(b, |p|, SEAL_SECTION, hash(p));
    assert b[..|p|] == p;
  }
}
