/**
  The state metadata of an artifact (src/artifact.c): globals, tables, tags, data
  and element segments and declared function references, as they are written,
  validated and restored.
 */
module ArtifactState {
  import opened Common
  import opened Bytes
  import opened ArtifactWords
  import opened ArtifactRecords
  import opened ArtifactLists
  import opened ArtifactCore

  // ---------------------------------------------------------------- element segments

  datatype Element = Element(mode: nat, table: nat, carrier: Byte, semantic: ValueType, offset: Expr, items: seq<Item>)

  const ELEMENT_TYPE := [4, 4, 4, 4, 4, 4, 4, 4]
  const ELEMENT_OFFSET := [8, 4, 4, 4]

  function ElementTypeWords(x: Element): seq<Word> {
    [U32(x.mode), U32(x.table), U32(x.carrier)] + ValueWords(x.semantic)
  }

  function ElementOffsetWords(x: Element): seq<Word> {
    SpanWords(x.offset.span) + [U32(x.offset.result), U32(|x.items|)]
  }

  function PutElement(x: Element): seq<Byte> {
    PutWords(ElementTypeWords(x)) + (PutWords(ElementOffsetWords(x)) + PutRecords(x.items, ItemWords))
  }

  predicate ElementTypeSound(f: seq<nat>) {
    |f| == 8 && f[0] <= SEGMENT_DECLARATIVE && f[2] <= 255 && ValueSound(f[3..])
  }

  predicate ElementOffsetSound(g: seq<nat>, source: nat) {
    |g| == 4 && SpanSound(g[0], g[1], source) && g[2] <= 255
  }

  function RestoreElement(b: seq<Byte>, source: nat): Parsed<Element> {
    var (f, b1) :- GetWords(b, ELEMENT_TYPE);
    if !ElementTypeSound(f) || ValueFrom(f[3..]).value.carrier != f[2] then Refused
    else
      var (g, b2) :- GetWords(b1, ELEMENT_OFFSET);
      if !ElementOffsetSound(g, source) then Refused
      else
        var (items, b3) :- Records(b2, g[3], ITEM, BuildItem(source));
        Got(Element(f[0], f[1], f[2], ValueFrom(f[3..]).value, Expr(SpanFrom(g[0], g[1]), g[2]), items), b3)
  }

  function ReadElement(b: seq<Byte>, source: nat): Parsed<()> {
    var (f, b1) :- GetWords(b, ELEMENT_TYPE);
    if !ElementTypeSound(f) then Refused
    else
      var (g, b2) :- GetWords(b1, ELEMENT_OFFSET);
      if !ElementOffsetSound(g, source) then Refused else PassAll(b2, g[3], ITEM, PassItem(source))
  }

  predicate ElementFits(x: Element, source: nat) {
    x.mode <= MAX32 && x.table <= MAX32 && ValueFits(x.semantic) && SpanFits(x.offset.span, source)
      && AllItemsFit(x.items, source)
  }

  predicate ElementFine(x: Element) {
    x.mode <= SEGMENT_DECLARATIVE && ValueGood(x.semantic) && AllItemsGood(x.items)
  }

  predicate ElementGood(x: Element) {
    ElementFine(x) && x.semantic.carrier == x.carrier
  }

  lemma {:induction false} ElementTypeHead(x: Element, source: nat)
    requires ElementFits(x, source)
    ensures var ws := ElementTypeWords(x); var f := Values(ws);
            && AllInRange(ws) && Shape(ws) == ELEMENT_TYPE && |f| == 8
            && ElementTypeSound(f) == (x.mode <= SEGMENT_DECLARATIVE && ValueGood(x.semantic))
            && f[0] == x.mode && f[1] == x.table && f[2] == x.carrier
            && (ValueGood(x.semantic) ==> ValueFrom(f[3..]) == Some(x.semantic))
  {
    assert Values(ElementTypeWords(x))[3..] == Values(ValueWords(x.semantic));
  }

  lemma {:induction false} ElementOffsetHead(x: Element, source: nat)
    requires ElementFits(x, source)
    ensures var us := ElementOffsetWords(x); var g := Values(us);
            && AllInRange(us) && Shape(us) == ELEMENT_OFFSET && |g| == 4 && g[3] == |x.items|
            && ElementOffsetSound(g, source)
            && Expr(SpanFrom(g[0], g[1]), g[2]) == x.offset
  {
    SpanBack(x.offset.span, source);
    hide SpanSound, SpanFrom, Offset;
  }

  lemma {:induction false} ElementBack(x: Element, source: nat, rest: seq<Byte>)
    requires ElementFits(x, source)
    ensures RestoreElement(PutElement(x) + rest, source) == if ElementGood(x) then Got(x, rest) else Refused
    ensures ReadElement(PutElement(x) + rest, source) == if ElementFine(x) then Got((), rest) else Refused
  {
    ElementTypeHead(x, source);
    ElementOffsetHead(x, source);
    hide ElementTypeWords, ElementOffsetWords, ElementTypeSound, ElementOffsetSound, ValueFrom, ValueGood, Records;
    hide PassAll, PutRecords, GetWords, PutWords;
    hide AllItemsFit, AllItemsGood, AllInRange, Shape, Values, SpanFrom, SpanFits, BuildItem, PassItem;
    var b2 := PutRecords(x.items, ItemWords) + rest;
    var b1 := PutWords(ElementOffsetWords(x)) + b2;
    assert PutElement(x) + rest == PutWords(ElementTypeWords(x)) + b1;
    WordsRoundTrip(ElementTypeWords(x), b1);
    WordsRoundTrip(ElementOffsetWords(x), b2);
    ItemsList(x.items, source, rest);
  }

  lemma {:induction false} ElementAgree(b: seq<Byte>, source: nat)
    ensures RestoreElement(b, source).Got? && ReadElement(b, source).Got? ==>
              RestoreElement(b, source).rest == ReadElement(b, source).rest
  {
    hide Records, PassAll, ElementTypeSound, ElementOffsetSound, ValueFrom, GetWords, BuildItem, PassItem;
    if RestoreElement(b, source).Got? && ReadElement(b, source).Got? {
      var h := GetWords(GetWords(b, ELEMENT_TYPE).rest, ELEMENT_OFFSET);
      RecordsAgree(h.rest, h.value[3], ITEM, BuildItem(source), PassItem(source));
    }
  }

  function PutElements(xs: seq<Element>): seq<Byte> { PutMany(xs, 0, PutElement) }
  function BuildElement(source: nat): (nat, seq<Byte>) -> Parsed<Element> { (i, b) => RestoreElement(b, source) }
  function PassElement(source: nat): (nat, seq<Byte>) -> Parsed<()> { (i, b) => ReadElement(b, source) }

  function RestoreElements(b: seq<Byte>, n: nat, source: nat): (r: Parsed<seq<Element>>)
    ensures r.Got? ==> |r.value| == n
  {
    Many(b, 0, n, BuildElement(source))
  }

  function ReadElements(b: seq<Byte>, n: nat, source: nat): Parsed<()> {
    PassMany(b, 0, n, PassElement(source))
  }

  predicate AllElementsFit(xs: seq<Element>, source: nat) {
    Counted(xs) && forall x :: x in xs ==> ElementFits(x, source)
  }

  predicate AllElementsGood(xs: seq<Element>) {
    forall x :: x in xs ==> ElementGood(x)
  }

  predicate AllElementsFine(xs: seq<Element>) {
    forall x :: x in xs ==> ElementFine(x)
  }

  lemma {:induction false} ElementsList(xs: seq<Element>, source: nat, rest: seq<Byte>)
    requires AllElementsFit(xs, source)
    ensures RestoreElements(PutElements(xs) + rest, |xs|, source) ==
              if AllElementsGood(xs) then Got(xs, rest) else Refused
    ensures ReadElements(PutElements(xs) + rest, |xs|, source) == if AllElementsFine(xs) then Got((), rest) else Refused
  {
    hide RestoreElement, ReadElement, PutElement, ElementFits, ElementGood, ElementFine;
    var get, pass := BuildElement(source), PassElement(source);
    var good, fine := (i: nat, x: Element) => ElementGood(x), (i: nat, x: Element) => ElementFine(x);
    forall i: nat, s | i < |xs|
      ensures Trips(xs[i], i, s, PutElement, get, good, pass, fine)
    {
      ElementBack(xs[i], source, s);
    }
    ManyRoundTrip(xs, 0, PutElement, get, good, pass, fine, rest);
    assert AllOf(xs, 0, good) <==> AllElementsGood(xs);
    assert AllOf(xs, 0, fine) <==> AllElementsFine(xs);
    assert xs[0..] == xs;
  }

  lemma {:induction false} ElementsAgree(b: seq<Byte>, n: nat, source: nat)
    ensures RestoreElements(b, n, source).Got? && ReadElements(b, n, source).Got? ==>
              RestoreElements(b, n, source).rest == ReadElements(b, n, source).rest
  {
    hide RestoreElement, ReadElement;
    var get, pass := BuildElement(source), PassElement(source);
    forall i: nat, s
      ensures get(i, s).Got? && pass(i, s).Got? ==> get(i, s).rest == pass(i, s).rest
    {
      ElementAgree(s, source);
    }
    ManyAgree(b, 0, n, get, pass);
  }

  // ---------------------------------------------------------------- declared references

  /** The restoring reader takes as many bytes as there are functions, or none. */
  function RestoreRefs(b: seq<Byte>, n: nat, functions: nat): Parsed<seq<Byte>> {
    if n == 0 then Got([], b) else if n != functions || n > |b| then Refused else Got(b[..n], b[n..])
  }

  /** The validating reader looks at the bytes. */
  function ReadRefs(b: seq<Byte>, n: nat): Parsed<()> {
    if n > |b| || exists i :: 0 <= i < n && b[i] > 1 then Refused else Got((), b[n..])
  }

  predicate RefsFine(refs: seq<Byte>) {
    forall i :: 0 <= i < |refs| ==> refs[i] <= 1
  }

  lemma {:induction false} RefsBack(refs: seq<Byte>, functions: nat, rest: seq<Byte>)
    ensures RestoreRefs(refs + rest, |refs|, functions) ==
              if refs == [] || |refs| == functions then Got(refs, rest) else Refused
    ensures ReadRefs(refs + rest, |refs|) == if RefsFine(refs) then Got((), rest) else Refused
  {
    var b := refs + rest;
    assert b[..|refs|] == refs && b[|refs|..] == rest;
    assert forall i :: 0 <= i < |refs| ==> b[i] == refs[i];
  }

  // ---------------------------------------------------------------- the whole section

  datatype State = State(globals: seq<Global>, tables: seq<Table>, tags: seq<Tag>, data: seq<DataSegment>,
      elements: seq<Element>,
                         refs: seq<Byte>, hasDataCount: bool, dataCount: nat)

  const STATE := [4, 4, 4, 4, 4, 4, 4, 4]

  function StateWords(s: State): seq<Word> {
    [U32(|s.globals|), U32(|s.tables|), U32(|s.tags|), U32(|s.data|), U32(|s.elements|), U32(|s.refs|),
     U32(Flag(s.hasDataCount)), U32(s.dataCount)]
  }

  /** `write_state_metadata`. */
  function PutState(s: State): seq<Byte> {
    PutWords(StateWords(s)) +
    (PutRecords(s.globals, GlobalWords)
      + (PutRecords(s.tables, TableWords)
      + (PutRecords(s.tags, TagWords) + (PutRecords(s.data, DataWords) + (PutElements(s.elements) + s.refs)))))
  }

  /** `restore_state_metadata`, for a context with the given function count and
      with `plain` telling which types have no results. */
  function RestoreState(b: seq<Byte>, source: nat, plain: seq<bool>, functions: nat): Parsed<State> {
    var (f, b1) :- GetWords(b, STATE);
    if f[6] > 1 then Refused
    else
      var (globals, b2) :- Appends(b1, f[0], GLOBAL, BuildGlobal(source), GlobalRoom);
      var (tables, b3) :- Appends(b2, f[1], TABLE, BuildTable(source), TableRoom);
      var (tags, b4) :- Appends(b3, f[2], TAG, TagFrom, TagRoom(plain));
      var (data, b5) :- Records(b4, f[3], DATA, BuildData(source));
      var (elements, b6) :- RestoreElements(b5, f[4], source);
      var (refs, b7) :- RestoreRefs(b6, f[5], functions);
      Got(State(globals, tables, tags, data, elements, refs, f[6] != 0, f[7]), b7)
  }

  /** What `read_state_metadata` reports. */
  datatype StateCounts = StateCounts(globals: nat, tables: nat, tags: nat, data: nat, elements: nat, refs: nat,
      hasDataCount: bool, dataCount: nat)

  /** `read_state_metadata`. */
  function ReadState(b: seq<Byte>, source: nat): Parsed<StateCounts> {
    var (f, b1) :- GetWords(b, STATE);
    if f[6] > 1 then Refused
    else
      var (_, b2) :- PassAll(b1, f[0], GLOBAL, PassGlobal(source));
      var (_, b3) :- PassAll(b2, f[1], TABLE, PassTable(source));
      var (_, b4) :- PassAll(b3, f[2], TAG, TagSound);
      var (_, b5) :- PassAll(b4, f[3], DATA, PassData(source));
      var (_, b6) :- ReadElements(b5, f[4], source);
      var (_, b7) :- ReadRefs(b6, f[5]);
      Got(StateCounts(f[0], f[1], f[2], f[3], f[4], f[5], f[6] != 0, f[7]), b7)
  }

  function StateCountsOf(s: State): StateCounts {
    StateCounts(|s.globals|, |s.tables|, |s.tags|, |s.data|, |s.elements|, |s.refs|, s.hasDataCount, s.dataCount)
  }

  predicate StateFits(s: State, source: nat) {
    && AllGlobalsFit(s.globals, source) && AllTablesFit(s.tables, source) && AllTagsFit(s.tags)
    && AllDataFit(s.data, source)
    && AllElementsFit(s.elements, source) && |s.refs| <= MAX32 && s.dataCount <= MAX32
  }

  function Then(first: Fate, next: Fate): Fate {
    if first.Kept? then next else first
  }

  /** What the restoring reader makes of state metadata. */
  function StateFate(s: State, plain: seq<bool>, functions: nat): Fate {
    Then(GlobalsFate(s.globals), Then(TablesFate(s.tables), Then(TagsFate(s.tags, plain),
      if AllDataGood(s.data) && AllElementsGood(s.elements) && (s.refs == [] || |s.refs| == functions) then Kept
      else Bad)))
  }

  /** What the validating reader asks of state metadata. */
  predicate StateFine(s: State) {
    AllGlobalsFine(s.globals) && AllTablesFine(s.tables) && AllDataGood(s.data) && AllElementsFine(s.elements)
      && RefsFine(s.refs)
  }

  lemma {:induction false} StateHead(s: State, source: nat)
    requires StateFits(s, source)
    ensures var f := Values(StateWords(s));
            && AllInRange(StateWords(s)) && Shape(StateWords(s)) == STATE && |f| == 8
            && f[0] == |s.globals| && f[1] == |s.tables| && f[2] == |s.tags| && f[3] == |s.data| && f[4] == |s.elements|
            && f[5] == |s.refs|
            && f[6] <= 1 && (f[6] != 0) == s.hasDataCount && f[7] == s.dataCount
  {
  }

  /** What is still to come after the first `k` lists of the section. */
  ghost function StateTail(s: State, k: nat, rest: seq<Byte>): seq<Byte>
    decreases 6 - k
  {
    if k >= 6 then rest
    else
      var part := match k
        case 0 => PutRecords(s.globals, GlobalWords)
        case 1 => PutRecords(s.tables, TableWords)
        case 2 => PutRecords(s.tags, TagWords)
        case 3 => PutRecords(s.data, DataWords)
        case 4 => PutElements(s.elements)
        case _ => s.refs;
      part + StateTail(s, k + 1, rest)
  }

  lemma {:induction false} StateParts(s: State, rest: seq<Byte>)
    ensures PutState(s) + rest == PutWords(StateWords(s)) + StateTail(s, 0, rest)
    ensures StateTail(s, 0, rest) == PutRecords(s.globals, GlobalWords) + StateTail(s, 1, rest)
    ensures StateTail(s, 1, rest) == PutRecords(s.tables, TableWords) + StateTail(s, 2, rest)
    ensures StateTail(s, 2, rest) == PutRecords(s.tags, TagWords) + StateTail(s, 3, rest)
    ensures StateTail(s, 3, rest) == PutRecords(s.data, DataWords) + StateTail(s, 4, rest)
    ensures StateTail(s, 4, rest) == PutElements(s.elements) + StateTail(s, 5, rest)
    ensures StateTail(s, 5, rest) == s.refs + rest
  {
    hide PutWords, PutRecords, PutElements, StateWords;
    var g, t, a, d, e := PutRecords(s.globals, GlobalWords), PutRecords(s.tables, TableWords),
      PutRecords(s.tags, TagWords), PutRecords(s.data, DataWords), PutElements(s.elements);
    assert StateTail(s, 6, rest) == rest;
    Associate(e, s.refs, rest);
    Associate(d, e + s.refs, rest);
    Associate(a, d + (e + s.refs), rest);
    Associate(t, a + (d + (e + s.refs)), rest);
    Associate(g, t + (a + (d + (e + s.refs))), rest);
    Associate(PutWords(StateWords(s)), g + (t + (a + (d + (e + s.refs)))), rest);
  }

  lemma {:induction false} StateRestored(s: State, source: nat, plain: seq<bool>, functions: nat, rest: seq<Byte>)
    requires StateFits(s, source)
    ensures RestoreState(PutState(s) + rest, source, plain, functions) ==
              Outcome(StateFate(s, plain, functions), s, rest)
  {
    hide StateWords, AllInRange, Shape, Values, GetWords, PutWords, PutRecords, Records, Appends, PassAll, PutElements;
    hide RestoreElements, ReadElements, RestoreRefs, ReadRefs, PutState, StateTail;
    hide AllGlobalsFit, GlobalsFate, AllGlobalsFine, AllTablesFit, TablesFate, AllTablesFine, AllTagsFit, TagsFate;
    hide AllDataFit, AllDataGood, AllElementsFit, AllElementsGood, AllElementsFine;
    hide BuildGlobal, PassGlobal, BuildTable, PassTable, TagRoom, BuildData, PassData, RefsFine;
    StateHead(s, source);
    StateParts(s, rest);
    WordsRoundTrip(StateWords(s), StateTail(s, 0, rest));
    GlobalsList(s.globals, source, StateTail(s, 1, rest));
    TablesList(s.tables, source, StateTail(s, 2, rest));
    TagsList(s.tags, plain, StateTail(s, 3, rest));
    DataList(s.data, source, StateTail(s, 4, rest));
    ElementsList(s.elements, source, StateTail(s, 5, rest));
    RefsBack(s.refs, functions, rest);
  }

  lemma {:induction false} StatePassed(s: State, source: nat, rest: seq<Byte>)
    requires StateFits(s, source)
    ensures ReadState(PutState(s) + rest, source) == if StateFine(s) then Got(StateCountsOf(s), rest) else Refused
  {
    hide StateWords, AllInRange, Shape, Values, GetWords, PutWords, PutRecords, Records, Appends, PassAll, PutElements;
    hide RestoreElements, ReadElements, RestoreRefs, ReadRefs, PutState, StateTail;
    hide AllGlobalsFit, GlobalsFate, AllGlobalsFine, AllTablesFit, TablesFate, AllTablesFine, AllTagsFit, TagsFate;
    hide AllDataFit, AllDataGood, AllElementsFit, AllElementsGood, AllElementsFine;
    hide BuildGlobal, PassGlobal, BuildTable, PassTable, TagRoom, BuildData, PassData, RefsFine;
    StateHead(s, source);
    StateParts(s, rest);
    WordsRoundTrip(StateWords(s), StateTail(s, 0, rest));
    GlobalsList(s.globals, source, StateTail(s, 1, rest));
    TablesList(s.tables, source, StateTail(s, 2, rest));
    TagsList(s.tags, [], StateTail(s, 3, rest));
    DataList(s.data, source, StateTail(s, 4, rest));
    ElementsList(s.elements, source, StateTail(s, 5, rest));
    RefsBack(s.refs, 0, rest);
  }

  /** Written state metadata is restored unchanged exactly if its fate allows it,
      and it passes validation exactly if it is fine. */
  lemma {:induction false} StateRoundTrip(s: State, source: nat, plain: seq<bool>, functions: nat, rest: seq<Byte>)
    requires StateFits(s, source)
    ensures RestoreState(PutState(s) + rest, source, plain, functions) ==
              Outcome(StateFate(s, plain, functions), s, rest)
    ensures ReadState(PutState(s) + rest, source) == if StateFine(s) then Got(StateCountsOf(s), rest) else Refused
  {
    hide *;
    StateRestored(s, source, plain, functions, rest);
    StatePassed(s, source, rest);
  }

  /** On any bytes that both readers accept, they count the same records and end
      at the same place. */
  lemma {:induction false} StateReadersAgree(b: seq<Byte>, source: nat, plain: seq<bool>, functions: nat)
    ensures var r, p := RestoreState(b, source, plain, functions), ReadState(b, source);
            r.Got? && p.Got? ==> r.rest == p.rest && StateCountsOf(r.value) == p.value
  {
    hide GetWords, Records, Appends, PassAll, RestoreElements, ReadElements, BuildGlobal, PassGlobal, BuildTable;
    hide PassTable, TagRoom, BuildData, PassData;
    if RestoreState(b, source, plain, functions).Got? {
      var h := GetWords(b, STATE);
      var f := h.value;
      AppendsAgree(h.rest, f[0], GLOBAL, BuildGlobal(source), GlobalRoom, PassGlobal(source));
      var b2 := Appends(h.rest, f[0], GLOBAL, BuildGlobal(source), GlobalRoom).rest;
      AppendsAgree(b2, f[1], TABLE, BuildTable(source), TableRoom, PassTable(source));
      var b3 := Appends(b2, f[1], TABLE, BuildTable(source), TableRoom).rest;
      AppendsAgree(b3, f[2], TAG, TagFrom, TagRoom(plain), TagSound);
      var b4 := Appends(b3, f[2], TAG, TagFrom, TagRoom(plain)).rest;
      RecordsAgree(b4, f[3], DATA, BuildData(source), PassData(source));
      var b5 := Records(b4, f[3], DATA, BuildData(source)).rest;
      ElementsAgree(b5, f[4], source);
    }
  }
}
