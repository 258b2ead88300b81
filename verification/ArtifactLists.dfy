/**
  Lists of plain artifact records: each comes back exactly if its elements do.
 */
module ArtifactLists {
  import opened Common
  import opened Bytes
  import opened ArtifactWords
  import opened ArtifactRecords

  predicate Counted<T>(xs: seq<T>) {
    |xs| <= MAX32
  }

  // The readers' checks for a given source size or type list.

  function BuildImport(source: nat): seq<nat> -> Option<Import> { f => ImportFrom(f, source) }
  function PassImport(source: nat, types: nat): seq<nat> -> bool { f => ImportSound(f, source, types) }
  function BuildExport(source: nat): seq<nat> -> Option<Export> { f => ExportFrom(f, source) }
  function PassExport(source: nat): seq<nat> -> bool { f => ExportSound(f, source) }
  function BuildGlobal(source: nat): seq<nat> -> Option<Global> { f => GlobalFrom(f, source) }
  function PassGlobal(source: nat): seq<nat> -> bool { f => GlobalSound(f, source) }
  function BuildTable(source: nat): seq<nat> -> Option<Table> { f => TableFrom(f, source) }
  function PassTable(source: nat): seq<nat> -> bool { f => TableSound(f, source) }
  function BuildData(source: nat): seq<nat> -> Option<DataSegment> { f => DataFrom(f, source) }
  function PassData(source: nat): seq<nat> -> bool { f => DataSound(f, source) }
  function BuildItem(source: nat): seq<nat> -> Option<Item> { f => ItemFrom(f, source) }
  function PassItem(source: nat): seq<nat> -> bool { f => ItemSound(f, source) }
  function TagRoom(plain: seq<bool>): Tag -> bool { t => TagFor(t, plain) }

  predicate AllTypedFit(xs: seq<Typed>) {
    Counted(xs) && forall x :: x in xs ==> ValueFits(x.semantic)
  }

  predicate AllTypedGood(xs: seq<Typed>) {
    forall x :: x in xs ==> TypedGood(x)
  }

  predicate AllTypedFine(xs: seq<Typed>) {
    forall x :: x in xs ==> ValueGood(x.semantic)
  }

  /** Parameters, results and locals come back exactly if their carriers agree. */
  lemma {:induction false} TypedList(xs: seq<Typed>, rest: seq<Byte>)
    requires AllTypedFit(xs)
    ensures Records(PutRecords(xs, TypedWords) + rest, |xs|, TYPED, TypedFrom) ==
              if AllTypedGood(xs) then Got(xs, rest) else Refused
    ensures PassAll(PutRecords(xs, TypedWords) + rest, |xs|, TYPED, TypedSound) ==
              if AllTypedFine(xs) then Got((), rest) else Refused
  {
    hide TypedWords, TypedFrom, TypedSound, TypedGood, ValueGood, Records, PassAll, PutRecords, AllInRange, Shape;
    hide Values;
    var good, fine := (x: Typed) => TypedGood(x), (x: Typed) => ValueGood(x.semantic);
    forall x | x in xs
      ensures AllInRange(TypedWords(x)) && Shape(TypedWords(x)) == TYPED
      ensures TypedFrom(Values(TypedWords(x))) == (if good(x) then Some(x) else None)
      ensures TypedSound(Values(TypedWords(x))) == fine(x)
    {
      TypedBack(x);
    }
    RecordsRoundTrip(xs, TypedWords, TYPED, TypedFrom, good, TypedSound, fine, rest);
  }

  predicate AllFieldsFit(xs: seq<FieldType>) {
    Counted(xs) && forall x :: x in xs ==> ValueFits(x.semantic)
  }

  predicate AllFieldsGood(xs: seq<FieldType>) {
    forall x :: x in xs ==> FieldGood(x)
  }

  lemma {:induction false} FieldsList(xs: seq<FieldType>, rest: seq<Byte>)
    requires AllFieldsFit(xs)
    ensures Records(PutRecords(xs, FieldWords) + rest, |xs|, FIELD, FieldFrom) ==
              if AllFieldsGood(xs) then Got(xs, rest) else Refused
    ensures PassAll(PutRecords(xs, FieldWords) + rest, |xs|, FIELD, FieldSound) ==
              if AllFieldsGood(xs) then Got((), rest) else Refused
  {
    hide FieldWords, FieldFrom, FieldSound, FieldGood, Records, PassAll, PutRecords, AllInRange, Shape, Values;
    var good := (x: FieldType) => FieldGood(x);
    forall x | x in xs
      ensures AllInRange(FieldWords(x)) && Shape(FieldWords(x)) == FIELD
      ensures FieldFrom(Values(FieldWords(x))) == (if good(x) then Some(x) else None)
      ensures FieldSound(Values(FieldWords(x))) == good(x)
    {
      FieldBack(x);
    }
    RecordsRoundTrip(xs, FieldWords, FIELD, FieldFrom, good, FieldSound, good, rest);
  }

  predicate AllCatchesFit(xs: seq<Catch>) {
    Counted(xs) && forall x :: x in xs ==> CatchFits(x)
  }

  predicate AllCatchesGood(xs: seq<Catch>) {
    forall x :: x in xs ==> CatchGood(x)
  }

  lemma {:induction false} CatchesList(xs: seq<Catch>, rest: seq<Byte>)
    requires AllCatchesFit(xs)
    ensures Records(PutRecords(xs, CatchWords) + rest, |xs|, CATCH, CatchFrom) ==
              if AllCatchesGood(xs) then Got(xs, rest) else Refused
    ensures PassAll(PutRecords(xs, CatchWords) + rest, |xs|, CATCH, CatchSound) ==
              if AllCatchesGood(xs) then Got((), rest) else Refused
  {
    hide CatchWords, CatchFrom, CatchSound, CatchGood, Records, PassAll, PutRecords, AllInRange, Shape, Values;
    var good := (x: Catch) => CatchGood(x);
    forall x | x in xs
      ensures AllInRange(CatchWords(x)) && Shape(CatchWords(x)) == CATCH
      ensures CatchFrom(Values(CatchWords(x))) == (if good(x) then Some(x) else None)
      ensures CatchSound(Values(CatchWords(x))) == good(x)
    {
      CatchBack(x);
    }
    RecordsRoundTrip(xs, CatchWords, CATCH, CatchFrom, good, CatchSound, good, rest);
  }

  predicate AllImportsFit(xs: seq<Import>, source: nat) {
    Counted(xs) && forall x :: x in xs ==> ImportFits(x, source)
  }

  predicate AllImportsGood(xs: seq<Import>) {
    forall x :: x in xs ==> x.kind <= EXTERN_TAG
  }

  predicate AllImportsFine(xs: seq<Import>, types: nat) {
    forall x :: x in xs ==> ImportTyped(x, types)
  }

  lemma {:induction false} ImportsList(xs: seq<Import>, source: nat, types: nat, rest: seq<Byte>)
    requires AllImportsFit(xs, source)
    ensures Records(PutRecords(xs, ImportWords) + rest, |xs|, IMPORT, BuildImport(source)) ==
              if AllImportsGood(xs) then Got(xs, rest) else Refused
    ensures PassAll(PutRecords(xs, ImportWords) + rest, |xs|, IMPORT, PassImport(source, types)) ==
              if AllImportsFine(xs, types) then Got((), rest) else Refused
  {
    hide ImportWords, ImportFrom, ImportSound, ImportTyped, Records, PassAll, PutRecords, AllInRange, Shape, Values;
    var good, fine := (x: Import) => x.kind <= EXTERN_TAG, (x: Import) => ImportTyped(x, types);
    forall x | x in xs
      ensures AllInRange(ImportWords(x)) && Shape(ImportWords(x)) == IMPORT
      ensures ImportFrom(Values(ImportWords(x)), source) == (if good(x) then Some(x) else None)
      ensures ImportSound(Values(ImportWords(x)), source, types) == fine(x)
    {
      ImportBack(x, source, types);
    }
    RecordsRoundTrip(xs, ImportWords, IMPORT, BuildImport(source), good, PassImport(source, types), fine, rest);
  }

  predicate AllExportsFit(xs: seq<Export>, source: nat) {
    Counted(xs) && forall x :: x in xs ==> ExportFits(x, source)
  }

  predicate AllExportsGood(xs: seq<Export>) {
    forall x :: x in xs ==> x.kind <= EXTERN_TAG
  }

  lemma {:induction false} ExportsList(xs: seq<Export>, source: nat, rest: seq<Byte>)
    requires AllExportsFit(xs, source)
    ensures Records(PutRecords(xs, ExportWords) + rest, |xs|, EXPORT, BuildExport(source)) ==
              if AllExportsGood(xs) then Got(xs, rest) else Refused
    ensures PassAll(PutRecords(xs, ExportWords) + rest, |xs|, EXPORT, PassExport(source)) ==
              if AllExportsGood(xs) then Got((), rest) else Refused
  {
    hide ExportWords, ExportFrom, ExportSound, Records, PassAll, PutRecords, AllInRange, Shape, Values;
    var good := (x: Export) => x.kind <= EXTERN_TAG;
    forall x | x in xs
      ensures AllInRange(ExportWords(x)) && Shape(ExportWords(x)) == EXPORT
      ensures ExportFrom(Values(ExportWords(x)), source) == (if good(x) then Some(x) else None)
      ensures ExportSound(Values(ExportWords(x)), source) == good(x)
    {
      ExportBack(x, source);
    }
    RecordsRoundTrip(xs, ExportWords, EXPORT, BuildExport(source), good, PassExport(source), good, rest);
  }

  predicate AllMemoriesFit(xs: seq<Mem>) {
    Counted(xs) && forall x :: x in xs ==> MemoryFits(x)
  }

  predicate AllMemoriesGood(xs: seq<Mem>) {
    forall x :: x in xs ==> x.pageSize != 0
  }

  predicate AllMemoriesFine(xs: seq<Mem>) {
    forall x :: x in xs ==> MemoryLimited(x)
  }

  lemma {:induction false} MemoriesList(xs: seq<Mem>, rest: seq<Byte>)
    requires AllMemoriesFit(xs)
    ensures Records(PutRecords(xs, MemoryWords) + rest, |xs|, MEMORY, MemoryFrom) ==
              if AllMemoriesGood(xs) then Got(xs, rest) else Refused
    ensures PassAll(PutRecords(xs, MemoryWords) + rest, |xs|, MEMORY, MemorySound) ==
              if AllMemoriesFine(xs) then Got((), rest) else Refused
  {
    hide MemoryWords, MemoryFrom, MemorySound, MemoryLimited, Records, PassAll, PutRecords, AllInRange, Shape, Values;
    var good, fine := (x: Mem) => x.pageSize != 0, (x: Mem) => MemoryLimited(x);
    forall x | x in xs
      ensures AllInRange(MemoryWords(x)) && Shape(MemoryWords(x)) == MEMORY
      ensures MemoryFrom(Values(MemoryWords(x))) == (if good(x) then Some(x) else None)
      ensures MemorySound(Values(MemoryWords(x))) == fine(x)
    {
      MemoryBack(x);
    }
    RecordsRoundTrip(xs, MemoryWords, MEMORY, MemoryFrom, good, MemorySound, fine, rest);
  }

  predicate AllGlobalsFit(xs: seq<Global>, source: nat) {
    Counted(xs) && forall x :: x in xs ==> GlobalFits(x, source)
  }

  function GlobalsFate(xs: seq<Global>): Fate {
    FateOf(xs, GlobalGood, GlobalRoom)
  }

  predicate AllGlobalsFine(xs: seq<Global>) {
    forall x :: x in xs ==> ValueGood(x.semantic)
  }

  lemma {:induction false} GlobalsList(xs: seq<Global>, source: nat, rest: seq<Byte>)
    requires AllGlobalsFit(xs, source)
    ensures Appends(PutRecords(xs, GlobalWords) + rest, |xs|, GLOBAL, BuildGlobal(source), GlobalRoom) ==
              Outcome(GlobalsFate(xs), xs, rest)
    ensures PassAll(PutRecords(xs, GlobalWords) + rest, |xs|, GLOBAL, PassGlobal(source)) ==
              if AllGlobalsFine(xs) then Got((), rest) else Refused
  {
    hide GlobalWords, GlobalFrom, GlobalSound, GlobalGood, ValueGood, Records, Appends, PassAll, PutRecords, AllInRange;
    hide Shape, Values;
    var good, fine := GlobalGood, (x: Global) => ValueGood(x.semantic);
    forall x | x in xs
      ensures AllInRange(GlobalWords(x)) && Shape(GlobalWords(x)) == GLOBAL
      ensures GlobalFrom(Values(GlobalWords(x)), source) == (if good(x) then Some(x) else None)
      ensures GlobalSound(Values(GlobalWords(x)), source) == fine(x)
    {
      GlobalBack(x, source);
    }
    RecordsRoundTrip(xs, GlobalWords, GLOBAL, BuildGlobal(source), good, PassGlobal(source), fine, rest);
    AppendsRoundTrip(xs, GlobalWords, GLOBAL, BuildGlobal(source), good, GlobalRoom, PassGlobal(source), fine, rest);
  }

  predicate AllTablesFit(xs: seq<Table>, source: nat) {
    Counted(xs) && forall x :: x in xs ==> TableFits(x, source)
  }

  function TablesFate(xs: seq<Table>): Fate {
    FateOf(xs, TableGood, TableRoom)
  }

  predicate AllTablesFine(xs: seq<Table>) {
    forall x :: x in xs ==> TableLimited(x)
  }

  lemma {:induction false} TablesList(xs: seq<Table>, source: nat, rest: seq<Byte>)
    requires AllTablesFit(xs, source)
    ensures Appends(PutRecords(xs, TableWords) + rest, |xs|, TABLE, BuildTable(source), TableRoom) ==
              Outcome(TablesFate(xs), xs, rest)
    ensures PassAll(PutRecords(xs, TableWords) + rest, |xs|, TABLE, PassTable(source)) ==
              if AllTablesFine(xs) then Got((), rest) else Refused
  {
    hide TableWords, TableFrom, TableSound, TableGood, TableLimited, Records, Appends, PassAll, PutRecords, AllInRange;
    hide Shape, Values;
    var good, fine := TableGood, (x: Table) => TableLimited(x);
    forall x | x in xs
      ensures AllInRange(TableWords(x)) && Shape(TableWords(x)) == TABLE
      ensures TableFrom(Values(TableWords(x)), source) == (if good(x) then Some(x) else None)
      ensures TableSound(Values(TableWords(x)), source) == fine(x)
    {
      TableBack(x, source);
    }
    RecordsRoundTrip(xs, TableWords, TABLE, BuildTable(source), good, PassTable(source), fine, rest);
    AppendsRoundTrip(xs, TableWords, TABLE, BuildTable(source), good, TableRoom, PassTable(source), fine, rest);
  }

  predicate AllTagsFit(xs: seq<Tag>) {
    Counted(xs) && forall x :: x in xs ==> x.typeIndex <= MAX32
  }

  function TagsFate(xs: seq<Tag>, plain: seq<bool>): Fate {
    FateOf(xs, AnyTag, TagRoom(plain))
  }

  lemma {:induction false} TagsList(xs: seq<Tag>, plain: seq<bool>, rest: seq<Byte>)
    requires AllTagsFit(xs)
    ensures Appends(PutRecords(xs, TagWords) + rest, |xs|, TAG, TagFrom, TagRoom(plain)) ==
              Outcome(TagsFate(xs, plain), xs, rest)
    ensures PassAll(PutRecords(xs, TagWords) + rest, |xs|, TAG, TagSound) == Got((), rest)
  {
    hide TagWords, TagFrom, TagSound, Records, Appends, PassAll, PutRecords, AllInRange, Shape, Values, TagRoom;
    var good, fine := AnyTag, (x: Tag) => true;
    forall x | x in xs
      ensures AllInRange(TagWords(x)) && Shape(TagWords(x)) == TAG
      ensures TagFrom(Values(TagWords(x))) == (if good(x) then Some(x) else None)
      ensures TagSound(Values(TagWords(x))) == fine(x)
    {
      TagBack(x);
    }
    RecordsRoundTrip(xs, TagWords, TAG, TagFrom, good, TagSound, fine, rest);
    AppendsRoundTrip(xs, TagWords, TAG, TagFrom, good, TagRoom(plain), TagSound, fine, rest);
  }

  predicate AllDataFit(xs: seq<DataSegment>, source: nat) {
    Counted(xs) && forall x :: x in xs ==> DataFits(x, source)
  }

  predicate AllDataGood(xs: seq<DataSegment>) {
    forall x :: x in xs ==> x.mode <= SEGMENT_DECLARATIVE
  }

  lemma {:induction false} DataList(xs: seq<DataSegment>, source: nat, rest: seq<Byte>)
    requires AllDataFit(xs, source)
    ensures Records(PutRecords(xs, DataWords) + rest, |xs|, DATA, BuildData(source)) ==
              if AllDataGood(xs) then Got(xs, rest) else Refused
    ensures PassAll(PutRecords(xs, DataWords) + rest, |xs|, DATA, PassData(source)) ==
              if AllDataGood(xs) then Got((), rest) else Refused
  {
    hide DataWords, DataFrom, DataSound, Records, PassAll, PutRecords, AllInRange, Shape, Values;
    var good := (x: DataSegment) => x.mode <= SEGMENT_DECLARATIVE;
    forall x | x in xs
      ensures AllInRange(DataWords(x)) && Shape(DataWords(x)) == DATA
      ensures DataFrom(Values(DataWords(x)), source) == (if good(x) then Some(x) else None)
      ensures DataSound(Values(DataWords(x)), source) == good(x)
    {
      DataBack(x, source);
    }
    RecordsRoundTrip(xs, DataWords, DATA, BuildData(source), good, PassData(source), good, rest);
  }

  predicate AllItemsFit(xs: seq<Item>, source: nat) {
    Counted(xs) && forall x :: x in xs ==> ItemFits(x, source)
  }

  predicate AllItemsGood(xs: seq<Item>) {
    forall x :: x in xs ==> x.kind <= ELEMENT_CONST_EXPR
  }

  lemma {:induction false} ItemsList(xs: seq<Item>, source: nat, rest: seq<Byte>)
    requires AllItemsFit(xs, source)
    ensures Records(PutRecords(xs, ItemWords) + rest, |xs|, ITEM, BuildItem(source)) ==
              if AllItemsGood(xs) then Got(xs, rest) else Refused
    ensures PassAll(PutRecords(xs, ItemWords) + rest, |xs|, ITEM, PassItem(source)) ==
              if AllItemsGood(xs) then Got((), rest) else Refused
  {
    hide ItemWords, ItemFrom, ItemSound, Records, PassAll, PutRecords, AllInRange, Shape, Values;
    var good := (x: Item) => x.kind <= ELEMENT_CONST_EXPR;
    forall x | x in xs
      ensures AllInRange(ItemWords(x)) && Shape(ItemWords(x)) == ITEM
      ensures ItemFrom(Values(ItemWords(x)), source) == (if good(x) then Some(x) else None)
      ensures ItemSound(Values(ItemWords(x)), source) == good(x)
    {
      ItemBack(x, source);
    }
    RecordsRoundTrip(xs, ItemWords, ITEM, BuildItem(source), good, PassItem(source), good, rest);
  }
}
