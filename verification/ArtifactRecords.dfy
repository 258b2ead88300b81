/**
  The validation records that an artifact carries (src/artifact.c), how they are
  written, and the two readers: the validating one, which only checks, and the
  restoring one, which builds the record again and has checks of its own.
 */
module ArtifactRecords {
  import opened Common
  import opened Bytes
  import opened ArtifactWords

  function Flag(b: bool): nat {
    if b then 1 else 0
  }

  // ---------------------------------------------------------------- value types

  const HEAP_TYPE_INDEX := 5
  const HEAP_BOTTOM := 13

  datatype ValueType = ValueType(carrier: Byte, isReference: bool, nullable: bool, heapKind: nat, typeIndex: nat)

  function ValueWords(v: ValueType): seq<Word> {
    [U32(v.carrier), U32(Flag(v.isReference)), U32(Flag(v.nullable)), U32(v.heapKind), U32(v.typeIndex)]
  }

  predicate ValueSound(f: seq<nat>) {
    |f| == 5 && f[0] <= 255 && f[1] <= 1 && f[2] <= 1 && f[3] <= HEAP_BOTTOM
  }

  function ValueFrom(f: seq<nat>): Option<ValueType> {
    if ValueSound(f) then Some(ValueType(f[0], f[1] != 0, f[2] != 0, f[3], f[4])) else None
  }

  predicate ValueFits(v: ValueType) {
    v.heapKind <= MAX32 && v.typeIndex <= MAX32
  }

  predicate ValueGood(v: ValueType) {
    v.heapKind <= HEAP_BOTTOM
  }

  // ---------------------------------------------------------------- spans of the source

  /** A pointer into the module's bytes, relative to their start. */
  datatype Address = Null | At(offset: int)
  datatype Span = Span(at: Address, size: nat)

  /** `source_span_offset` succeeds. */
  predicate Inside(s: Span, source: nat) {
    match s.at
    case Null => s.size == 0
    case At(offset) => 0 <= offset && offset + s.size <= source
  }

  function Offset(a: Address): nat {
    if a.At? && a.offset >= 0 then a.offset else MAX64
  }

  function SpanWords(s: Span): seq<Word> {
    [U64(Offset(s.at)), U32(s.size)]
  }

  predicate SpanSound(offset: nat, size: nat, source: nat) {
    if offset == MAX64 then size == 0 else offset <= source && size <= source - offset
  }

  function SpanFrom(offset: nat, size: nat): Span {
    Span(if offset == MAX64 then Null else At(offset), size)
  }

  predicate SpanFits(s: Span, source: nat) {
    Inside(s, source) && s.size <= MAX32 && source < MAX64
  }

  lemma {:induction false} SpanBack(s: Span, source: nat)
    requires SpanFits(s, source)
    ensures SpanSound(Offset(s.at), s.size, source) && SpanFrom(Offset(s.at), s.size) == s && Offset(s.at) <= MAX64
  {
  }

  // ---------------------------------------------------------------- parameters, results and locals

  /** A value type together with its carrier byte. */
  datatype Typed = Typed(carrier: Byte, semantic: ValueType)

  const TYPED := [4, 4, 4, 4, 4, 4]

  function TypedWords(t: Typed): seq<Word> {
    [U32(t.carrier)] + ValueWords(t.semantic)
  }

  predicate TypedSound(f: seq<nat>) {
    |f| == 6 && f[0] <= 255 && ValueSound(f[1..])
  }

  function TypedFrom(f: seq<nat>): Option<Typed> {
    if !TypedSound(f) then None
    else
      var v := ValueFrom(f[1..]).value;
      if v.carrier == f[0] then Some(Typed(f[0], v)) else None
  }

  predicate TypedGood(t: Typed) {
    ValueGood(t.semantic) && t.semantic.carrier == t.carrier
  }

  lemma {:induction false} TypedBack(t: Typed)
    requires ValueFits(t.semantic)
    ensures AllInRange(TypedWords(t)) && Shape(TypedWords(t)) == TYPED
    ensures TypedSound(Values(TypedWords(t))) == ValueGood(t.semantic)
    ensures TypedFrom(Values(TypedWords(t))) == if TypedGood(t) then Some(t) else None
  {
    var f := Values(TypedWords(t));
    assert f[1..] == Values(ValueWords(t.semantic));
  }

  // ---------------------------------------------------------------- fields of composite types

  datatype FieldType = FieldType(packed: Byte, mutable: bool, semantic: ValueType)

  const FIELD := [4, 4, 4, 4, 4, 4, 4]

  function FieldWords(t: FieldType): seq<Word> {
    [U32(t.packed), U32(Flag(t.mutable))] + ValueWords(t.semantic)
  }

  predicate FieldSound(f: seq<nat>) {
    |f| == 7 && f[0] in {0, 8, 16} && f[1] <= 1 && ValueSound(f[2..])
  }

  function FieldFrom(f: seq<nat>): Option<FieldType> {
    if FieldSound(f) then Some(FieldType(f[0], f[1] != 0, ValueFrom(f[2..]).value)) else None
  }

  predicate FieldGood(t: FieldType) {
    t.packed in {0, 8, 16} && ValueGood(t.semantic)
  }

  lemma {:induction false} FieldBack(t: FieldType)
    requires ValueFits(t.semantic)
    ensures AllInRange(FieldWords(t)) && Shape(FieldWords(t)) == FIELD
    ensures FieldSound(Values(FieldWords(t))) == FieldGood(t)
    ensures FieldFrom(Values(FieldWords(t))) == if FieldGood(t) then Some(t) else None
  {
    var f := Values(FieldWords(t));
    assert f[2..] == Values(ValueWords(t.semantic));
  }

  // ---------------------------------------------------------------- catches

  datatype Catch = Catch(kind: nat, tag: nat, depth: nat)

  const CATCH := [4, 4, 4]

  function CatchWords(c: Catch): seq<Word> {
    [U32(c.kind), U32(c.tag), U32(c.depth)]
  }

  predicate CatchSound(f: seq<nat>) {
    |f| == 3 && f[0] <= 3
  }

  function CatchFrom(f: seq<nat>): Option<Catch> {
    if CatchSound(f) then Some(Catch(f[0], f[1], f[2])) else None
  }

  predicate CatchGood(c: Catch) {
    c.kind <= 3
  }

  predicate CatchFits(c: Catch) {
    c.kind <= MAX32 && c.tag <= MAX32 && c.depth <= MAX32
  }

  lemma {:induction false} CatchBack(c: Catch)
    requires CatchFits(c)
    ensures AllInRange(CatchWords(c)) && Shape(CatchWords(c)) == CATCH
    ensures CatchSound(Values(CatchWords(c))) == CatchGood(c)
    ensures CatchFrom(Values(CatchWords(c))) == if CatchGood(c) then Some(c) else None
  {
  }

  // ---------------------------------------------------------------- imports, exports, memories

  const EXTERN_FUNCTION := 0
  const EXTERN_TAG := 4

  datatype Import = Import(mod: Span, name: Span, kind: nat, item: nat, typeIndex: nat)

  const IMPORT := [8, 4, 8, 4, 4, 4, 4]

  function ImportWords(x: Import): seq<Word> {
    SpanWords(x.mod) + SpanWords(x.name) + [U32(x.kind), U32(x.item), U32(x.typeIndex)]
  }

  /** What both readers ask of an import. */
  predicate ImportShaped(f: seq<nat>, source: nat) {
    |f| == 7 && SpanSound(f[0], f[1], source) && SpanSound(f[2], f[3], source) && f[4] <= EXTERN_TAG
  }

  /** The validating reader also looks at the type of functions and tags. */
  predicate ImportSound(f: seq<nat>, source: nat, types: nat) {
    ImportShaped(f, source) && (f[4] == EXTERN_FUNCTION || f[4] == EXTERN_TAG ==> f[6] < types)
  }

  function ImportFrom(f: seq<nat>, source: nat): Option<Import> {
    if ImportShaped(f, source) then Some(Import(SpanFrom(f[0], f[1]), SpanFrom(f[2], f[3]), f[4], f[5], f[6])) else None
  }

  predicate ImportFits(x: Import, source: nat) {
    SpanFits(x.mod, source) && SpanFits(x.name, source) && x.kind <= MAX32 && x.item <= MAX32 && x.typeIndex <= MAX32
  }

  predicate ImportTyped(x: Import, types: nat) {
    x.kind <= EXTERN_TAG && (x.kind == EXTERN_FUNCTION || x.kind == EXTERN_TAG ==> x.typeIndex < types)
  }

  lemma {:induction false} ImportBack(x: Import, source: nat, types: nat)
    requires ImportFits(x, source)
    ensures AllInRange(ImportWords(x)) && Shape(ImportWords(x)) == IMPORT
    ensures ImportSound(Values(ImportWords(x)), source, types) == ImportTyped(x, types)
    ensures ImportFrom(Values(ImportWords(x)), source) == if x.kind <= EXTERN_TAG then Some(x) else None
  {
    SpanBack(x.mod, source);
    SpanBack(x.name, source);
    var f := Values(ImportWords(x));
    assert f == [Offset(x.mod.at), x.mod.size, Offset(x.name.at), x.name.size, x.kind, x.item, x.typeIndex];
    hide SpanSound, SpanFrom, Offset;
  }

  datatype Export = Export(name: Span, kind: nat, item: nat)

  const EXPORT := [8, 4, 4, 4]

  function ExportWords(x: Export): seq<Word> {
    SpanWords(x.name) + [U32(x.kind), U32(x.item)]
  }

  predicate ExportSound(f: seq<nat>, source: nat) {
    |f| == 4 && SpanSound(f[0], f[1], source) && f[2] <= EXTERN_TAG
  }

  function ExportFrom(f: seq<nat>, source: nat): Option<Export> {
    if ExportSound(f, source) then Some(Export(SpanFrom(f[0], f[1]), f[2], f[3])) else None
  }

  predicate ExportFits(x: Export, source: nat) {
    SpanFits(x.name, source) && x.kind <= MAX32 && x.item <= MAX32
  }

  lemma {:induction false} ExportBack(x: Export, source: nat)
    requires ExportFits(x, source)
    ensures AllInRange(ExportWords(x)) && Shape(ExportWords(x)) == EXPORT
    ensures ExportSound(Values(ExportWords(x)), source) == (x.kind <= EXTERN_TAG)
    ensures ExportFrom(Values(ExportWords(x)), source) == if x.kind <= EXTERN_TAG then Some(x) else None
  {
    SpanBack(x.name, source);
    var f := Values(ExportWords(x));
    assert f == [Offset(x.name.at), x.name.size, x.kind, x.item];
    hide SpanSound, SpanFrom, Offset;
  }

  datatype Mem = Mem(imported: bool, shared: bool, memory64: bool, pageSize: nat, minimum: nat, maximum: nat,
      hasMaximum: bool)

  const MEMORY := [4, 4, 4, 4, 8, 8, 4]

  function MemoryWords(m: Mem): seq<Word> {
    [U32(Flag(m.imported)), U32(Flag(m.shared)), U32(Flag(m.memory64)), U32(m.pageSize), U64(m.minimum),
     U64(m.maximum), U32(Flag(m.hasMaximum))]
  }

  predicate MemoryShaped(f: seq<nat>) {
    |f| == 7 && f[0] <= 1 && f[1] <= 1 && f[2] <= 1 && f[6] <= 1 && f[3] != 0
  }

  /** The validating reader also relates the limits. */
  predicate MemorySound(f: seq<nat>) {
    MemoryShaped(f) && (f[1] != 0 ==> f[6] != 0) && (f[6] != 0 ==> f[5] >= f[4])
  }

  function MemoryFrom(f: seq<nat>): Option<Mem> {
    if MemoryShaped(f) then Some(Mem(f[0] != 0, f[1] != 0, f[2] != 0, f[3], f[4], f[5], f[6] != 0)) else None
  }

  predicate MemoryFits(m: Mem) {
    m.pageSize <= MAX32 && m.minimum <= MAX64 && m.maximum <= MAX64
  }

  predicate MemoryLimited(m: Mem) {
    m.pageSize != 0 && (m.shared ==> m.hasMaximum) && (m.hasMaximum ==> m.maximum >= m.minimum)
  }

  lemma {:induction false} MemoryBack(m: Mem)
    requires MemoryFits(m)
    ensures AllInRange(MemoryWords(m)) && Shape(MemoryWords(m)) == MEMORY
    ensures MemorySound(Values(MemoryWords(m))) == MemoryLimited(m)
    ensures MemoryFrom(Values(MemoryWords(m))) == if m.pageSize != 0 then Some(m) else None
  {
  }

  // ---------------------------------------------------------------- globals, tables, tags

  datatype Global = Global(carrier: Byte, semantic: ValueType, mutable: bool, imported: bool, initializer: Span)

  const GLOBAL := [4, 4, 4, 4, 4, 4, 4, 4, 8, 4]

  function GlobalWords(g: Global): seq<Word> {
    [U32(g.carrier)] + ValueWords(g.semantic) + [U32(Flag(g.mutable)), U32(Flag(g.imported))] + SpanWords(g.initializer)
  }

  predicate GlobalSound(f: seq<nat>, source: nat) {
    |f| == 10 && f[0] <= 255 && ValueSound(f[1..6]) && f[6] <= 1 && f[7] <= 1 && SpanSound(f[8], f[9], source)
  }

  /** The restoring reader asks for one carrier. */
  function GlobalFrom(f: seq<nat>, source: nat): Option<Global> {
    if !GlobalSound(f, source) then None
    else
      var v := ValueFrom(f[1..6]).value;
      if v.carrier == f[0] then Some(Global(f[0], v, f[6] != 0, f[7] != 0, SpanFrom(f[8], f[9]))) else None
  }

  predicate GlobalFits(g: Global, source: nat) {
    ValueFits(g.semantic) && SpanFits(g.initializer, source)
  }

  predicate GlobalGood(g: Global) {
    ValueGood(g.semantic) && g.semantic.carrier == g.carrier
  }

  /** Appending a global asks for bytes exactly if there is an initializer, and for
      none on an import. */
  predicate GlobalRoom(g: Global) {
    (g.initializer.at.Null? <==> g.initializer.size == 0) && (g.imported ==> g.initializer.at.Null?)
  }

  function GlobalFields(g: Global): seq<nat> {
    var v := g.semantic;
    [g.carrier, v.carrier, Flag(v.isReference), Flag(v.nullable), v.heapKind, v.typeIndex,
     Flag(g.mutable), Flag(g.imported), Offset(g.initializer.at), g.initializer.size]
  }

  lemma {:induction false} GlobalValues(g: Global, source: nat)
    requires GlobalFits(g, source)
    ensures AllInRange(GlobalWords(g)) && Shape(GlobalWords(g)) == GLOBAL && Values(GlobalWords(g)) == GlobalFields(g)
  {
    SpanBack(g.initializer, source);
    hide Offset;
  }

  lemma {:induction false} GlobalBack(g: Global, source: nat)
    requires GlobalFits(g, source)
    ensures AllInRange(GlobalWords(g)) && Shape(GlobalWords(g)) == GLOBAL
    ensures GlobalSound(Values(GlobalWords(g)), source) == ValueGood(g.semantic)
    ensures GlobalFrom(Values(GlobalWords(g)), source) == if GlobalGood(g) then Some(g) else None
  {
    SpanBack(g.initializer, source);
    GlobalValues(g, source);
    hide GlobalWords, SpanSound, SpanFrom, Offset, Shape, AllInRange;
    assert GlobalFields(g)[1..6] == Values(ValueWords(g.semantic));
  }

  datatype Table = Table(carrier: Byte, semantic: ValueType, imported: bool, minimum: nat, maximum: nat,
      hasMaximum: bool, table64: bool, initializer: Span)

  const TABLE := [4, 4, 4, 4, 4, 4, 4, 8, 8, 4, 4, 8, 4]

  function TableWords(t: Table): seq<Word> {
    var v := t.semantic;
    [U32(t.carrier), U32(v.carrier), U32(Flag(v.isReference)), U32(Flag(v.nullable)), U32(v.heapKind), U32(v.typeIndex),
     U32(Flag(t.imported)), U64(t.minimum), U64(t.maximum), U32(Flag(t.hasMaximum)), U32(Flag(t.table64)),
     U64(Offset(t.initializer.at)), U32(t.initializer.size)]
  }

  predicate TableShaped(f: seq<nat>, source: nat) {
    |f| == 13 && f[0] <= 255 && ValueSound(f[1..6]) && f[6] <= 1 && f[9] <= 1 && f[10] <= 1
      && SpanSound(f[11], f[12], source)
  }

  predicate TableSound(f: seq<nat>, source: nat) {
    && TableShaped(f, source)
    && (f[10] == 0 ==> f[7] <= MAX32 && f[8] <= MAX32)
    && (f[9] != 0 ==> f[8] >= f[7])
  }

  function TableFrom(f: seq<nat>, source: nat): Option<Table> {
    if !TableShaped(f, source) then None
    else
      var v, span := ValueFrom(f[1..6]).value, SpanFrom(f[11], f[12]);
      if v.carrier == f[0] && !(f[6] != 0 && span.at != Null)
      then Some(Table(f[0], v, f[6] != 0, f[7], f[8], f[9] != 0, f[10] != 0, span)) else None
  }

  predicate TableFits(t: Table, source: nat) {
    ValueFits(t.semantic) && SpanFits(t.initializer, source) && t.minimum <= MAX64 && t.maximum <= MAX64
  }

  predicate TableLimited(t: Table) {
    ValueGood(t.semantic) && (!t.table64 ==> t.minimum <= MAX32 && t.maximum <= MAX32)
      && (t.hasMaximum ==> t.maximum >= t.minimum)
  }

  predicate TableGood(t: Table) {
    ValueGood(t.semantic) && t.semantic.carrier == t.carrier && (t.imported ==> t.initializer.at.Null?)
  }

  /** Appending a table asks for a reference type, and for bytes exactly if there is
      an initializer. */
  predicate TableRoom(t: Table) {
    t.semantic.isReference && (t.initializer.at.Null? <==> t.initializer.size == 0)
  }

  function TableFields(t: Table): seq<nat> {
    var v := t.semantic;
    [t.carrier, v.carrier, Flag(v.isReference), Flag(v.nullable), v.heapKind, v.typeIndex,
     Flag(t.imported), t.minimum, t.maximum, Flag(t.hasMaximum), Flag(t.table64), Offset(t.initializer.at),
       t.initializer.size]
  }

  lemma {:induction false} TableRanges(t: Table, source: nat)
    requires TableFits(t, source)
    ensures AllInRange(TableWords(t))
  {
    SpanBack(t.initializer, source);
    hide Offset;
  }

  lemma {:induction false} TableShape(t: Table)
    ensures Shape(TableWords(t)) == TABLE
  {
    hide Offset;
  }

  lemma {:induction false} TableValues(t: Table)
    ensures Values(TableWords(t)) == TableFields(t)
  {
    hide Offset;
  }

  lemma {:induction false} TableBack(t: Table, source: nat)
    requires TableFits(t, source)
    ensures AllInRange(TableWords(t)) && Shape(TableWords(t)) == TABLE
    ensures TableSound(Values(TableWords(t)), source) == TableLimited(t)
    ensures TableFrom(Values(TableWords(t)), source) == if TableGood(t) then Some(t) else None
  {
    SpanBack(t.initializer, source);
    TableRanges(t, source);
    TableShape(t);
    TableValues(t);
    hide TableWords, SpanSound, SpanFrom, Offset, Shape, AllInRange;
    assert TableFields(t)[1..6] == Values(ValueWords(t.semantic));
  }

  datatype Tag = Tag(typeIndex: nat, imported: bool)

  const TAG := [4, 4]

  function TagWords(t: Tag): seq<Word> {
    [U32(t.typeIndex), U32(Flag(t.imported))]
  }

  predicate TagSound(f: seq<nat>) {
    |f| == 2 && f[1] <= 1
  }

  function TagFrom(f: seq<nat>): Option<Tag> {
    if TagSound(f) then Some(Tag(f[0], f[1] != 0)) else None
  }

  predicate AnyTag(t: Tag) {
    true
  }

  /** Appending a tag asks for a type without results; `plain` says which have none. */
  predicate TagFor(t: Tag, plain: seq<bool>) {
    t.typeIndex < |plain| && plain[t.typeIndex]
  }

  lemma {:induction false} TagBack(t: Tag)
    requires t.typeIndex <= MAX32
    ensures AllInRange(TagWords(t)) && Shape(TagWords(t)) == TAG
    ensures TagSound(Values(TagWords(t)))
    ensures TagFrom(Values(TagWords(t))) == Some(t)
  {
  }

  // ---------------------------------------------------------------- segments

  const SEGMENT_DECLARATIVE := 2
  const ELEMENT_CONST_EXPR := 1

  datatype Expr = Expr(span: Span, result: Byte)

  datatype DataSegment = DataSegment(mode: nat, memory: nat, offset: Expr, data: Span)

  const DATA := [4, 4, 8, 4, 4, 8, 4]

  function DataWords(d: DataSegment): seq<Word> {
    [U32(d.mode), U32(d.memory)] + SpanWords(d.offset.span) + [U32(d.offset.result)] + SpanWords(d.data)
  }

  predicate DataSound(f: seq<nat>, source: nat) {
    |f| == 7 && f[0] <= SEGMENT_DECLARATIVE && SpanSound(f[2], f[3], source) && f[4] <= 255
      && SpanSound(f[5], f[6], source)
  }

  function DataFrom(f: seq<nat>, source: nat): Option<DataSegment> {
    if DataSound(f, source) then Some(DataSegment(f[0], f[1], Expr(SpanFrom(f[2], f[3]), f[4]), SpanFrom(f[5], f[6])))
    else None
  }

  predicate DataFits(d: DataSegment, source: nat) {
    d.mode <= MAX32 && d.memory <= MAX32 && SpanFits(d.offset.span, source) && SpanFits(d.data, source)
  }

  lemma {:induction false} DataBack(d: DataSegment, source: nat)
    requires DataFits(d, source)
    ensures AllInRange(DataWords(d)) && Shape(DataWords(d)) == DATA
    ensures DataSound(Values(DataWords(d)), source) == (d.mode <= SEGMENT_DECLARATIVE)
    ensures DataFrom(Values(DataWords(d)), source) == if d.mode <= SEGMENT_DECLARATIVE then Some(d) else None
  {
    SpanBack(d.offset.span, source);
    SpanBack(d.data, source);
    var f := Values(DataWords(d));
    assert f ==
        [d.mode, d.memory, Offset(d.offset.span.at), d.offset.span.size, d.offset.result, Offset(d.data.at),
        d.data.size];
    hide SpanSound, SpanFrom, Offset;
  }

  datatype Item = Item(kind: nat, function_: nat, expression: Expr)

  const ITEM := [4, 4, 8, 4, 4]

  function ItemWords(x: Item): seq<Word> {
    [U32(x.kind), U32(x.function_)] + SpanWords(x.expression.span) + [U32(x.expression.result)]
  }

  predicate ItemSound(f: seq<nat>, source: nat) {
    |f| == 5 && f[0] <= ELEMENT_CONST_EXPR && SpanSound(f[2], f[3], source) && f[4] <= 255
  }

  function ItemFrom(f: seq<nat>, source: nat): Option<Item> {
    if ItemSound(f, source) then Some(Item(f[0], f[1], Expr(SpanFrom(f[2], f[3]), f[4]))) else None
  }

  predicate ItemFits(x: Item, source: nat) {
    x.kind <= MAX32 && x.function_ <= MAX32 && SpanFits(x.expression.span, source)
  }

  lemma {:induction false} ItemBack(x: Item, source: nat)
    requires ItemFits(x, source)
    ensures AllInRange(ItemWords(x)) && Shape(ItemWords(x)) == ITEM
    ensures ItemSound(Values(ItemWords(x)), source) == (x.kind <= ELEMENT_CONST_EXPR)
    ensures ItemFrom(Values(ItemWords(x)), source) == if x.kind <= ELEMENT_CONST_EXPR then Some(x) else None
  {
    SpanBack(x.expression.span, source);
    var f := Values(ItemWords(x));
    assert f == [x.kind, x.function_, Offset(x.expression.span.at), x.expression.span.size, x.expression.result];
    hide SpanSound, SpanFrom, Offset;
  }
}
