/**
  The two artifact readers as they run (src/artifact.c): a cursor that the
  validating and the restoring reader move over the same bytes.
 */
module ArtifactReader {
  import opened Common
  import opened Bytes
  import opened ArtifactWords
  import opened ArtifactRecords
  import opened ArtifactLists
  import opened DefinedTypes
  import opened TypeOrder
  import opened TypeMachine
  import opened ArtifactCore
  import opened ArtifactState
  import opened ArtifactBinding
  import opened ArtifactFile

  /** A reader's answer is the one that the format prescribes. */
  ghost predicate Built<T>(spec: Parsed<T>, ok: bool, x: T, rest: seq<Byte>) {
    ok == spec.Got? && (ok ==> x == spec.value && rest == spec.rest) && (!ok ==> spec.Refused?)
  }

  ghost predicate Looked<T>(spec: Parsed<T>, ok: bool, rest: seq<Byte>) {
    ok == spec.Got? && (ok ==> rest == spec.rest) && (!ok ==> spec.Refused?)
  }

  /** The same for a reader that reports how it failed. */
  ghost predicate Answered<T>(spec: Parsed<T>, status: Status, x: T, rest: seq<Byte>) {
    status == (if spec.Got? then Ok else Fault(spec)) && (status == Ok ==> x == spec.value && rest == spec.rest)
  }

  /** `done` elements are there, and `next` says what becomes of the others. */
  ghost predicate Continues<T>(whole: Parsed<seq<T>>, done: seq<T>, next: Parsed<seq<T>>) {
    if next.Got? then whole == Got(done + next.value, next.rest) else !whole.Got? && whole.Exhausted? == next.Exhausted?
  }

  ghost function Prepended<T>(x: T, more: Parsed<seq<T>>): Parsed<seq<T>> {
    if more.Got? then Got([x] + more.value, more.rest) else more
  }

  lemma {:induction false} Continued<T>(whole: Parsed<seq<T>>, done: seq<T>, x: T, more: Parsed<seq<T>>)
    requires Continues(whole, done, Prepended(x, more))
    ensures Continues(whole, done + [x], more)
  {
    if more.Got? {
      assert done + ([x] + more.value) == (done + [x]) + more.value;
    }
  }

  lemma {:induction false} Starts<T>(whole: Parsed<seq<T>>)
    ensures Continues(whole, [], whole)
  {
    if whole.Got? {
      assert [] + whole.value == whole.value;
    }
  }

  class Reader {
    const data: seq<Byte>
    var offset: nat

    ghost predicate Valid()
      reads this
    {
      offset <= |data|
    }

    ghost function Rest(): seq<Byte>
      requires Valid()
      reads this
    {
      data[offset..]
    }

    constructor (bytes: seq<Byte>)
      ensures Valid() && data == bytes && Rest() == bytes
    {
      data, offset := bytes, 0;
    }

    /** A chain of gets that stops at the first that finds too little. */
    method GetAll(shape: seq<nat>) returns (ok: bool, f: seq<nat>)
      requires Valid()
      modifies this
      ensures Valid() && Built(GetWords(old(Rest()), shape), ok, f, Rest()) && (ok ==> |f| == |shape|)
    {
      hide FromLe;
      f := [];
      var i := 0;
      Starts(GetWords(Rest(), shape));
      assert shape[0..] == shape;
      while i < |shape|
        invariant 0 <= i <= |shape| && Valid()
        invariant Continues(GetWords(old(Rest()), shape), f, GetWords(Rest(), shape[i..]))
      {
        var n := shape[i];
        ghost var rest := Rest();
        assert shape[i..][1..] == shape[i + 1..];
        if |data| - offset < n {
          return false, f;
        }
        var v := FromLe(data[offset..offset + n]);
        assert rest[..n] == data[offset..offset + n] && rest[n..] == data[offset + n..];
        Continued(GetWords(old(Rest()), shape), f, v, GetWords(rest[n..], shape[i + 1..]));
        f := f + [v];
        offset := offset + n;
        i := i + 1;
      }
      assert shape[i..] == [] && f + [] == f;
      return true, f;
    }

    /** `get_bytes`. */
    method GetBytes(n: nat) returns (ok: bool, bytes: seq<Byte>)
      requires Valid()
      modifies this
      ensures Valid() && ok == (n <= |old(Rest())|)
      ensures ok ==> bytes == old(Rest())[..n] && Rest() == old(Rest())[n..]
    {
      if n > |data| - offset {
        return false, [];
      }
      bytes := data[offset..offset + n];
      offset := offset + n;
      ok := true;
    }

    // -------------------------------------------------------------- lists of plain records

    /** The restoring loop over plain records. */
    method BuildList<T>(n: nat, shape: seq<nat>, build: seq<nat> -> Option<T>) returns (ok: bool, xs: seq<T>)
      requires Valid()
      modifies this
      ensures Valid() && Built(Records(old(Rest()), n, shape, build), ok, xs, Rest())
    {
      hide GetWords;
      xs := [];
      var i := 0;
      Starts(Records(Rest(), n, shape, build));
      while i < n
        invariant 0 <= i <= n && Valid()
        invariant Continues(Records(old(Rest()), n, shape, build), xs, Records(Rest(), n - i, shape, build))
      {
        var f;
        ok, f := GetAll(shape);
        if !ok {
          return;
        }
        var x := build(f);
        if x.None? {
          return false, xs;
        }
        Continued(Records(old(Rest()), n, shape, build), xs, x.value, Records(Rest(), n - i - 1, shape, build));
        xs := xs + [x.value];
        i := i + 1;
      }
      assert xs + [] == xs;
      return true, xs;
    }

    /** The validating loop over plain records. */
    method PassList(n: nat, shape: seq<nat>, sound: seq<nat> -> bool) returns (ok: bool)
      requires Valid()
      modifies this
      ensures Valid() && Looked(PassAll(old(Rest()), n, shape, sound), ok, Rest())
    {
      hide GetWords;
      var i := 0;
      while i < n
        invariant 0 <= i <= n && Valid()
        invariant PassAll(old(Rest()), n, shape, sound) == PassAll(Rest(), n - i, shape, sound)
      {
        var f;
        ok, f := GetAll(shape);
        if !ok {
          return;
        }
        if !sound(f) {
          return false;
        }
        i := i + 1;
      }
      return true;
    }

    /** The restoring loop over records that are appended to the context. */
    method AppendList<T>(n: nat, shape: seq<nat>, build: seq<nat> -> Option<T>, room: T -> bool)
        returns (status: Status, xs: seq<T>)
      requires Valid()
      modifies this
      ensures Valid() && Answered(Appends(old(Rest()), n, shape, build, room), status, xs, Rest())
    {
      hide GetWords;
      xs := [];
      var i := 0;
      Starts(Appends(Rest(), n, shape, build, room));
      while i < n
        invariant 0 <= i <= n && Valid()
        invariant Continues(Appends(old(Rest()), n, shape, build, room), xs, Appends(Rest(), n - i, shape, build, room))
      {
        var ok, f := GetAll(shape);
        if !ok {
          return MalformedModule, xs;
        }
        var x := build(f);
        if x.None? {
          return MalformedModule, xs;
        }
        if !room(x.value) {
          return OutOfMemory, xs;
        }
        Continued(Appends(old(Rest()), n, shape, build, room), xs, x.value,
          Appends(Rest(), n - i - 1, shape, build, room));
        xs := xs + [x.value];
        i := i + 1;
      }
      assert xs + [] == xs;
      return Ok, xs;
    }

    // -------------------------------------------------------------- types

    method RestoreTypeRecord(i: nat, n: nat) returns (ok: bool, t: FuncType)
      requires Valid()
      modifies this
      ensures Valid() && Built(RestoreType(old(Rest()), i, n), ok, t, Rest())
    {
      hide GetWords, Records, LayoutSound;
      t := FuncType(true, [], [], 0, false, 0, 0, 0, []);
      var f;
      ok, f := GetAll(TYPE);
      if !ok || !LayoutSound(f, i, n) {
        return false, t;
      }
      var params, results, fields;
      ok, params := BuildList(f[1], TYPED, TypedFrom);
      if !ok {
        return;
      }
      ok, results := BuildList(f[2], TYPED, TypedFrom);
      if !ok {
        return;
      }
      ok, fields := BuildList(f[8], FIELD, FieldFrom);
      t := FuncType(true, params, results, f[3], f[4] != 0, f[5], f[6], f[7], fields);
    }

    method ReadTypeRecord(i: nat, n: nat) returns (ok: bool)
      requires Valid()
      modifies this
      ensures Valid() && Looked(ReadType(old(Rest()), i, n), ok, Rest())
    {
      hide GetWords, PassAll, LayoutSound;
      var f;
      ok, f := GetAll(TYPE);
      if !ok || !LayoutSound(f, i, n) {
        return false;
      }
      ok := PassList(f[1], TYPED, TypedSound);
      if !ok {
        return;
      }
      ok := PassList(f[2], TYPED, TypedSound);
      if !ok {
        return;
      }
      ok := PassList(f[8], FIELD, FieldSound);
    }

    method RestoreTypeList(n: nat) returns (ok: bool, ts: seq<FuncType>)
      requires Valid()
      modifies this
      ensures Valid() && Built(RestoreTypes(old(Rest()), n), ok, ts, Rest())
    {
      hide RestoreType;
      ts := [];
      var i := 0;
      Starts(RestoreTypes(Rest(), n));
      while i < n
        invariant 0 <= i <= n && Valid()
        invariant Continues(RestoreTypes(old(Rest()), n), ts, Many(Rest(), i, n, BuildType(n)))
      {
        var t;
        ok, t := RestoreTypeRecord(i, n);
        if !ok {
          return;
        }
        Continued(RestoreTypes(old(Rest()), n), ts, t, Many(Rest(), i + 1, n, BuildType(n)));
        ts := ts + [t];
        i := i + 1;
      }
      assert ts + [] == ts;
      return true, ts;
    }

    method ReadTypeList(n: nat) returns (ok: bool)
      requires Valid()
      modifies this
      ensures Valid() && Looked(ReadTypes(old(Rest()), n), ok, Rest())
    {
      hide ReadType;
      var i := 0;
      while i < n
        invariant 0 <= i <= n && Valid() && ReadTypes(old(Rest()), n) == PassMany(Rest(), i, n, PassType(n))
      {
        ok := ReadTypeRecord(i, n);
        if !ok {
          return;
        }
        i := i + 1;
      }
      return true;
    }

    // -------------------------------------------------------------- functions and their controls

    method RestoreControlRecord(types: nat) returns (ok: bool, c: Control)
      requires Valid()
      modifies this
      ensures Valid() && Built(RestoreControl(old(Rest()), types), ok, c, Rest())
    {
      hide GetWords, Records;
      c := Control(0, 0, 0, 0, 0, 0, 0, []);
      var f;
      ok, f := GetAll(CONTROL);
      if !ok || !ControlSound(f, types) {
        return false, c;
      }
      var catches;
      ok, catches := BuildList(f[7], CATCH, CatchFrom);
      c := Control(f[0], f[1], f[2], f[3], f[4], f[5], f[6], catches);
    }

    method ReadControlRecord(types: nat) returns (ok: bool)
      requires Valid()
      modifies this
      ensures Valid() && Looked(ReadControl(old(Rest()), types), ok, Rest())
    {
      hide GetWords, PassAll;
      var f;
      ok, f := GetAll(CONTROL);
      if !ok || !ControlSound(f, types) {
        return false;
      }
      ok := PassList(f[7], CATCH, CatchSound);
    }

    method RestoreControlList(n: nat, types: nat) returns (ok: bool, xs: seq<Control>)
      requires Valid()
      modifies this
      ensures Valid() && Built(RestoreControls(old(Rest()), n, types), ok, xs, Rest())
    {
      hide RestoreControl;
      xs := [];
      var i := 0;
      Starts(RestoreControls(Rest(), n, types));
      while i < n
        invariant 0 <= i <= n && Valid()
        invariant Continues(RestoreControls(old(Rest()), n, types), xs, Many(Rest(), i, n, BuildControl(types)))
      {
        var x;
        ok, x := RestoreControlRecord(types);
        if !ok {
          return;
        }
        Continued(RestoreControls(old(Rest()), n, types), xs, x, Many(Rest(), i + 1, n, BuildControl(types)));
        xs := xs + [x];
        i := i + 1;
      }
      assert xs + [] == xs;
      return true, xs;
    }

    method ReadControlList(n: nat, types: nat) returns (ok: bool)
      requires Valid()
      modifies this
      ensures Valid() && Looked(ReadControls(old(Rest()), n, types), ok, Rest())
    {
      hide ReadControl;
      var i := 0;
      while i < n
        invariant 0 <= i <= n && Valid()
        invariant ReadControls(old(Rest()), n, types) == PassMany(Rest(), i, n, PassControl(types))
      {
        ok := ReadControlRecord(types);
        if !ok {
          return;
        }
        i := i + 1;
      }
      return true;
    }

    method RestoreFunctionRecord(types: nat, source: nat) returns (ok: bool, x: Function)
      requires Valid()
      modifies this
      ensures Valid() && Built(RestoreFunction(old(Rest()), types, source), ok, x, Rest())
    {
      hide GetWords, Records, RestoreControls, SpanFrom, SpanSound;
      x := Function(0, false, [], Span(Null, 0), []);
      var f, locals, controls;
      ok, f := GetAll(FUNCTION);
      if !ok || !FunctionSound(f, types, source) {
        return false, x;
      }
      ok, locals := BuildList(f[2], TYPED, TypedFrom);
      if !ok {
        return;
      }
      ok, controls := RestoreControlList(f[5], types);
      x := Function(f[0], f[1] != 0, locals, SpanFrom(f[3], f[4]), controls);
    }

    method ReadFunctionRecord(types: nat, source: nat) returns (ok: bool)
      requires Valid()
      modifies this
      ensures Valid() && Looked(ReadFunction(old(Rest()), types, source), ok, Rest())
    {
      hide GetWords, PassAll, ReadControls, SpanSound;
      var f;
      ok, f := GetAll(FUNCTION);
      if !ok || !FunctionSound(f, types, source) {
        return false;
      }
      ok := PassList(f[2], TYPED, TypedSound);
      if !ok {
        return;
      }
      ok := ReadControlList(f[5], types);
    }

    method RestoreFunctionList(n: nat, types: nat, source: nat) returns (ok: bool, xs: seq<Function>)
      requires Valid()
      modifies this
      ensures Valid() && Built(RestoreFunctions(old(Rest()), n, types, source), ok, xs, Rest())
    {
      hide RestoreFunction;
      xs := [];
      var i := 0;
      Starts(RestoreFunctions(Rest(), n, types, source));
      while i < n
        invariant 0 <= i <= n && Valid()
        invariant Continues(RestoreFunctions(old(Rest()), n, types, source), xs,
                      Many(Rest(), i, n, BuildFunction(types, source)))
      {
        var x;
        ok, x := RestoreFunctionRecord(types, source);
        if !ok {
          return;
        }
        Continued(RestoreFunctions(old(Rest()), n, types, source), xs, x,
          Many(Rest(), i + 1, n, BuildFunction(types, source)));
        xs := xs + [x];
        i := i + 1;
      }
      assert xs + [] == xs;
      return true, xs;
    }

    method ReadFunctionList(n: nat, types: nat, source: nat) returns (ok: bool)
      requires Valid()
      modifies this
      ensures Valid() && Looked(ReadFunctions(old(Rest()), n, types, source), ok, Rest())
    {
      hide ReadFunction;
      var i := 0;
      while i < n
        invariant 0 <= i <= n && Valid()
        invariant ReadFunctions(old(Rest()), n, types, source) == PassMany(Rest(), i, n, PassFunction(types, source))
      {
        ok := ReadFunctionRecord(types, source);
        if !ok {
          return;
        }
        i := i + 1;
      }
      return true;
    }

    // -------------------------------------------------------------- element segments

    method RestoreElementRecord(source: nat) returns (ok: bool, x: Element)
      requires Valid()
      modifies this
      ensures Valid() && Built(RestoreElement(old(Rest()), source), ok, x, Rest())
    {
      hide GetWords, Records, SpanFrom, SpanSound, BuildItem;
      x := Element(0, 0, 0, ValueType(0, false, false, 0, 0), Expr(Span(Null, 0), 0), []);
      var f, g, items;
      ok, f := GetAll(ELEMENT_TYPE);
      if !ok || !ElementTypeSound(f) || ValueFrom(f[3..]).value.carrier != f[2] {
        return false, x;
      }
      ok, g := GetAll(ELEMENT_OFFSET);
      if !ok || !ElementOffsetSound(g, source) {
        return false, x;
      }
      ok, items := BuildList(g[3], ITEM, BuildItem(source));
      x := Element(f[0], f[1], f[2], ValueFrom(f[3..]).value, Expr(SpanFrom(g[0], g[1]), g[2]), items);
    }

    method ReadElementRecord(source: nat) returns (ok: bool)
      requires Valid()
      modifies this
      ensures Valid() && Looked(ReadElement(old(Rest()), source), ok, Rest())
    {
      hide GetWords, PassAll, SpanSound, PassItem;
      var f, g;
      ok, f := GetAll(ELEMENT_TYPE);
      if !ok || !ElementTypeSound(f) {
        return false;
      }
      ok, g := GetAll(ELEMENT_OFFSET);
      if !ok || !ElementOffsetSound(g, source) {
        return false;
      }
      ok := PassList(g[3], ITEM, PassItem(source));
    }

    method RestoreElementList(n: nat, source: nat) returns (ok: bool, xs: seq<Element>)
      requires Valid()
      modifies this
      ensures Valid() && Built(RestoreElements(old(Rest()), n, source), ok, xs, Rest())
    {
      hide RestoreElement;
      xs := [];
      var i := 0;
      Starts(RestoreElements(Rest(), n, source));
      while i < n
        invariant 0 <= i <= n && Valid()
        invariant Continues(RestoreElements(old(Rest()), n, source), xs, Many(Rest(), i, n, BuildElement(source)))
      {
        var x;
        ok, x := RestoreElementRecord(source);
        if !ok {
          return;
        }
        Continued(RestoreElements(old(Rest()), n, source), xs, x, Many(Rest(), i + 1, n, BuildElement(source)));
        xs := xs + [x];
        i := i + 1;
      }
      assert xs + [] == xs;
      return true, xs;
    }

    method ReadElementList(n: nat, source: nat) returns (ok: bool)
      requires Valid()
      modifies this
      ensures Valid() && Looked(ReadElements(old(Rest()), n, source), ok, Rest())
    {
      hide ReadElement;
      var i := 0;
      while i < n
        invariant 0 <= i <= n && Valid()
        invariant ReadElements(old(Rest()), n, source) == PassMany(Rest(), i, n, PassElement(source))
      {
        ok := ReadElementRecord(source);
        if !ok {
          return;
        }
        i := i + 1;
      }
      return true;
    }

    // -------------------------------------------------------------- sections

    /** `restore_core_metadata`. */
    method RestoreCoreSection(source: nat) returns (status: Status, c: Core)
      requires Valid()
      modifies this
      ensures Valid() && Answered(RestoreCore(old(Rest()), source), status, c, Rest())
    {
      hide GetWords, Records, RestoreTypes, RestoreFunctions, BuildImport, BuildExport, Finalize, AnyComposite;
      c := Core(false, [], [], [], [], []);
      var ok, f := GetAll(CORE);
      if !ok || f[0] > 1 {
        return MalformedModule, c;
      }
      var read, types, store;
      ghost var b1 := Rest();
      ok, read := RestoreTypeList(f[1]);
      if !ok {
        return MalformedModule, c;
      }
      RestoredSupers(b1, f[1]);
      status, types, store := SettleTypes(read, f[0] != 0);
      if status != Ok {
        return;
      }
      var functions, imports, exports, memories;
      ok, functions := RestoreFunctionList(f[2], f[1], source);
      if !ok {
        return MalformedModule, c;
      }
      ok, imports := BuildList(f[3], IMPORT, BuildImport(source));
      if !ok {
        return MalformedModule, c;
      }
      ok, exports := BuildList(f[4], EXPORT, BuildExport(source));
      if !ok {
        return MalformedModule, c;
      }
      ok, memories := BuildList(f[5], MEMORY, MemoryFrom);
      if !ok {
        return MalformedModule, c;
      }
      c := Core(store, types, functions, imports, exports, memories);
    }

    /** `read_core_metadata`. */
    method ReadCoreSection(source: nat) returns (ok: bool, counts: CoreCounts)
      requires Valid()
      modifies this
      ensures Valid() && Built(ReadCore(old(Rest()), source), ok, counts, Rest())
    {
      hide GetWords, PassAll, ReadTypes, ReadFunctions, PassImport, PassExport;
      counts := CoreCounts(0, 0, 0, 0, 0);
      var f;
      ok, f := GetAll(CORE);
      if !ok || f[0] > 1 {
        return false, counts;
      }
      ok := ReadTypeList(f[1]);
      if !ok {
        return;
      }
      ok := ReadFunctionList(f[2], f[1], source);
      if !ok {
        return;
      }
      ok := PassList(f[3], IMPORT, PassImport(source, f[1]));
      if !ok {
        return;
      }
      ok := PassList(f[4], EXPORT, PassExport(source));
      if !ok {
        return;
      }
      ok := PassList(f[5], MEMORY, MemorySound);
      counts := CoreCounts(f[1], f[2], f[3], f[4], f[5]);
    }

    /** The declared references at the end of `restore_state_metadata`. */
    method RestoreRefBytes(n: nat, functions: nat) returns (ok: bool, refs: seq<Byte>)
      requires Valid()
      modifies this
      ensures Valid() && Built(RestoreRefs(old(Rest()), n, functions), ok, refs, Rest())
    {
      if n == 0 {
        return true, [];
      }
      if n != functions {
        return false, [];
      }
      ok, refs := GetBytes(n);
    }

    /** The loop over them at the end of `read_state_metadata`. */
    method ReadRefBytes(n: nat) returns (ok: bool)
      requires Valid()
      modifies this
      ensures Valid() && Looked(ReadRefs(old(Rest()), n), ok, Rest())
    {
      if n > |data| - offset {
        return false;
      }
      var i := 0;
      while i < n
        invariant 0 <= i <= n && offset == old(offset) && forall j :: 0 <= j < i ==> Rest()[j] <= 1
      {
        if data[offset + i] > 1 {
          assert Rest()[i] > 1;
          return false;
        }
        i := i + 1;
      }
      offset := offset + n;
      return true;
    }

    /** `restore_state_metadata`. */
    method RestoreStateSection(source: nat, plain: seq<bool>, functions: nat) returns (status: Status, s: State)
      requires Valid()
      modifies this
      ensures Valid() && Answered(RestoreState(old(Rest()), source, plain, functions), status, s, Rest())
    {
      hide GetWords, Records, Appends, RestoreElements, RestoreRefs, BuildGlobal, BuildTable, TagRoom, BuildData;
      s := State([], [], [], [], [], [], false, 0);
      var ok, f := GetAll(STATE);
      if !ok || f[6] > 1 {
        return MalformedModule, s;
      }
      var globals, tables, tags, segments, elements, refs;
      status, globals := AppendList(f[0], GLOBAL, BuildGlobal(source), GlobalRoom);
      if status != Ok {
        return;
      }
      status, tables := AppendList(f[1], TABLE, BuildTable(source), TableRoom);
      if status != Ok {
        return;
      }
      status, tags := AppendList(f[2], TAG, TagFrom, TagRoom(plain));
      if status != Ok {
        return;
      }
      ok, segments := BuildList(f[3], DATA, BuildData(source));
      if !ok {
        return MalformedModule, s;
      }
      ok, elements := RestoreElementList(f[4], source);
      if !ok {
        return MalformedModule, s;
      }
      ok, refs := RestoreRefBytes(f[5], functions);
      if !ok {
        return MalformedModule, s;
      }
      s := State(globals, tables, tags, segments, elements, refs, f[6] != 0, f[7]);
    }

    /** `read_state_metadata`. */
    method ReadStateSection(source: nat) returns (ok: bool, counts: StateCounts)
      requires Valid()
      modifies this
      ensures Valid() && Built(ReadState(old(Rest()), source), ok, counts, Rest())
    {
      hide GetWords, PassAll, ReadElements, ReadRefs, PassGlobal, PassTable, PassData;
      counts := StateCounts(0, 0, 0, 0, 0, 0, false, 0);
      var f;
      ok, f := GetAll(STATE);
      if !ok || f[6] > 1 {
        return false, counts;
      }
      ok := PassList(f[0], GLOBAL, PassGlobal(source));
      if !ok {
        return;
      }
      ok := PassList(f[1], TABLE, PassTable(source));
      if !ok {
        return;
      }
      ok := PassList(f[2], TAG, TagSound);
      if !ok {
        return;
      }
      ok := PassList(f[3], DATA, PassData(source));
      if !ok {
        return;
      }
      ok := ReadElementList(f[4], source);
      if !ok {
        return;
      }
      ok := ReadRefBytes(f[5]);
      counts := StateCounts(f[0], f[1], f[2], f[3], f[4], f[5], f[6] != 0, f[7]);
    }

    /** `read_summary`. */
    method ReadSummarySection() returns (ok: bool, s: Summary)
      requires Valid()
      modifies this
      ensures Valid() && Built(ReadSummary(old(Rest())), ok, s, Rest())
    {
      hide GetWords;
      var none := Defined(0, 0, 0, 0, 0);
      s := Summary(0, 0, 0, none, none, 0, 0, 0, false, 0, false, 0, 0);
      var f, g, h;
      ok, f := GetAll(SUMMARY_IMPORTS);
      if !ok {
        return;
      }
      ok, g := GetAll(SUMMARY_ITEMS);
      if !ok {
        return;
      }
      ok, h := GetAll(SUMMARY_FLAGS);
      if !ok || h[0] > 1 || h[2] > 1 {
        return false, s;
      }
      s := Summary(f[0], f[1], f[2], Defined(f[3], f[4], f[5], f[6], f[7]), Defined(g[0], g[1], g[2], g[3], g[4]),
        g[5], g[6], g[7],
                   h[0] != 0, h[1], h[2] != 0, h[3], h[4]);
    }

    // -------------------------------------------------------------- the file

    method GetHeader() returns (ok: bool, h: Header)
      requires Valid()
      modifies this
      ensures Valid() && Built(ReadHeader(old(Rest())), ok, h, Rest())
    {
      HeaderNeeds(Rest());
      hide GetWords;
      h := Header(0, 0, 0, 0, 0, [], 0, 0);
      var magic, f, digest, g;
      ok, magic := GetBytes(4);
      if !ok || magic != MAGIC {
        return false, h;
      }
      ok, f := GetAll(HEADER_WORDS);
      if !ok {
        return;
      }
      ok, digest := GetBytes(DIGEST_SIZE);
      if !ok {
        return;
      }
      ok, g := GetAll([4, 4]);
      if !ok {
        return;
      }
      h := Header(f[0], f[1], f[2], f[3], f[4], digest, g[0], g[1]);
    }

    /** A section header and the bytes that it announces. */
    method GetSection() returns (ok: bool, kind: nat, body: seq<Byte>)
      requires Valid()
      modifies this
      ensures Valid() && Built(TakeSection(old(Rest())), ok, (kind, body), Rest())
    {
      hide GetWords;
      var f;
      ok, f := GetAll([4, 4]);
      if !ok {
        return false, 0, [];
      }
      kind := f[0];
      ok, body := GetBytes(f[1]);
    }
  }

  // ---------------------------------------------------------------- types and value types

  lemma {:induction false} ManySupers(b: seq<Byte>, i: nat, n: nat)
    requires i <= n && Many(b, i, n, BuildType(n)).Got?
    ensures var ts := Many(b, i, n, BuildType(n)).value; forall k :: 0 <= k < |ts| ==>
              ts[k].super == MAX32 || ts[k].super < i + k
    decreases n - i
  {
    hide GetWords, Records;
    if i < n {
      var first := RestoreType(b, i, n);
      ManySupers(first.rest, i + 1, n);
      var more := Many(first.rest, i + 1, n, BuildType(n)).value;
      assert Many(b, i, n, BuildType(n)).value == [first.value] + more;
    }
  }

  /** Restored supertypes come before their subtypes. */
  lemma {:induction false} RestoredSupers(b: seq<Byte>, n: nat)
    requires RestoreTypes(b, n).Got?
    ensures SupersEarlier(RestoreTypes(b, n).value)
  {
    ManySupers(b, 0, n);
  }

  /** The types that were read, finalized in the context. */
  method SettleTypes(read: seq<FuncType>, store: bool)
      returns (status: Status, types: seq<FuncType>, requiresStore: bool)
    requires SupersEarlier(read)
    ensures status == match Finalize(read)
                      case Broken => MalformedModule
                      case Deep => OutOfMemory
                      case Made(_) => Ok
    ensures status == Ok ==> types == Finalize(read).types && requiresStore == (store || AnyComposite(read))
  {
    hide Finalize, SupersEarlier, AnyComposite;
    var context := new FuncType[|read|](i requires 0 <= i < |read| => read[i]);
    assert context[..] == read;
    status, requiresStore := FinalizeTypes(context, store);
    types := context[..];
  }

  /** The loop over the locals of a function in `bind_state_types`. */
  method BindLocalList(types: seq<FuncType>, xs: seq<Typed>) returns (ok: bool, ys: seq<Typed>)
    ensures ok == AllBindable(Kinds(types), xs) && (ok ==> ys == BindLocals(Kinds(types), xs))
  {
    hide Kinds, Rebind, Bindable;
    ys := xs;
    var j := 0;
    while j < |xs|
      invariant 0 <= j <= |xs| == |ys| && AllBindable(Kinds(types), xs[..j])
      invariant forall k :: 0 <= k < |xs| ==>
                  ys[k] == if k < j then xs[k].(semantic := Rebind(Kinds(types), xs[k].semantic)) else xs[k]
    {
      var v;
      ok, v := BindValue(types, ys[j].semantic);
      if !ok {
        return;
      }
      ys := ys[j := ys[j].(semantic := v)];
      j := j + 1;
    }
    assert xs[..j] == xs && ys == BindLocals(Kinds(types), xs);
    ok := true;
  }

  method BindFunctionList(types: seq<FuncType>, xs: seq<Function>) returns (ok: bool, ys: seq<Function>)
    ensures ok == FunctionsBindable(Kinds(types), xs) && (ok ==> ys == BindFunctions(Kinds(types), xs))
  {
    hide Kinds, AllBindable, BindLocals;
    ys := xs;
    var i := 0;
    while i < |xs|
      invariant 0 <= i <= |xs| == |ys| && FunctionsBindable(Kinds(types), xs[..i])
      invariant forall k :: 0 <= k < |xs| ==>
                  ys[k] == if k < i then xs[k].(locals := BindLocals(Kinds(types), xs[k].locals)) else xs[k]
    {
      var locals;
      ok, locals := BindLocalList(types, ys[i].locals);
      if !ok {
        return;
      }
      ys := ys[i := ys[i].(locals := locals)];
      i := i + 1;
    }
    assert xs[..i] == xs && ys == BindFunctions(Kinds(types), xs);
    ok := true;
  }

  method BindGlobalList(types: seq<FuncType>, xs: seq<Global>) returns (ok: bool, ys: seq<Global>)
    ensures ok == GlobalsBindable(Kinds(types), xs) && (ok ==> ys == BindGlobals(Kinds(types), xs))
  {
    hide Kinds, Rebind, Bindable;
    ys := xs;
    var i := 0;
    while i < |xs|
      invariant 0 <= i <= |xs| == |ys| && GlobalsBindable(Kinds(types), xs[..i])
      invariant forall k :: 0 <= k < |xs| ==>
                  ys[k] == if k < i then xs[k].(semantic := Rebind(Kinds(types), xs[k].semantic)) else xs[k]
    {
      var v;
      ok, v := BindValue(types, ys[i].semantic);
      if !ok {
        return;
      }
      ys := ys[i := ys[i].(semantic := v)];
      i := i + 1;
    }
    assert xs[..i] == xs && ys == BindGlobals(Kinds(types), xs);
    ok := true;
  }

  method BindTableList(types: seq<FuncType>, xs: seq<Table>) returns (ok: bool, ys: seq<Table>)
    ensures ok == TablesBindable(Kinds(types), xs) && (ok ==> ys == BindTables(Kinds(types), xs))
  {
    hide Kinds, Rebind, Bindable;
    ys := xs;
    var i := 0;
    while i < |xs|
      invariant 0 <= i <= |xs| == |ys| && TablesBindable(Kinds(types), xs[..i])
      invariant forall k :: 0 <= k < |xs| ==>
                  ys[k] == if k < i then xs[k].(semantic := Rebind(Kinds(types), xs[k].semantic)) else xs[k]
    {
      var v;
      ok, v := BindValue(types, ys[i].semantic);
      if !ok {
        return;
      }
      ys := ys[i := ys[i].(semantic := v)];
      i := i + 1;
    }
    assert xs[..i] == xs && ys == BindTables(Kinds(types), xs);
    ok := true;
  }

  method BindElementList(types: seq<FuncType>, xs: seq<Element>) returns (ok: bool, ys: seq<Element>)
    ensures ok == ElementsBindable(Kinds(types), xs) && (ok ==> ys == BindElements(Kinds(types), xs))
  {
    hide Kinds, Rebind, Bindable;
    ys := xs;
    var i := 0;
    while i < |xs|
      invariant 0 <= i <= |xs| == |ys| && ElementsBindable(Kinds(types), xs[..i])
      invariant forall k :: 0 <= k < |xs| ==>
                  ys[k] == if k < i then xs[k].(semantic := Rebind(Kinds(types), xs[k].semantic)) else xs[k]
    {
      var v;
      ok, v := BindValue(types, ys[i].semantic);
      if !ok {
        return;
      }
      ys := ys[i := ys[i].(semantic := v)];
      i := i + 1;
    }
    assert xs[..i] == xs && ys == BindElements(Kinds(types), xs);
    ok := true;
  }

  /** `bind_state_types`. */
  method BindContext(c: Core, s: State) returns (ok: bool, core: Core, state: State)
    ensures ok == ContextBindable(c, s) && (ok ==> core == BoundCore(c) && state == BoundState(c, s))
  {
    hide FunctionsBindable, GlobalsBindable, TablesBindable, ElementsBindable, BindFunctions, BindGlobals, BindTables;
    hide BindElements;
    core, state := c, s;
    var functions, globals, tables, elements;
    ok, functions := BindFunctionList(c.types, c.functions);
    if !ok {
      return;
    }
    ok, globals := BindGlobalList(c.types, s.globals);
    if !ok {
      return;
    }
    ok, tables := BindTableList(c.types, s.tables);
    if !ok {
      return;
    }
    ok, elements := BindElementList(c.types, s.elements);
    core, state := c.(functions := functions), s.(globals := globals, tables := tables, elements := elements);
  }

  /** A header that is read piece by piece has all its 72 bytes. */
  lemma {:induction false} HeaderNeeds(b: seq<Byte>)
    ensures |b| >= 4 && GetWords(b[4..], HEADER_WORDS).Got? ==>
              var b1 := GetWords(b[4..], HEADER_WORDS).rest;
              |b1| >= DIGEST_SIZE && GetWords(b1[DIGEST_SIZE..], [4, 4]).Got? ==> |b| >= HEADER_SIZE
  {
    hide GetWords, Total;
    if |b| >= 4 && GetWords(b[4..], HEADER_WORDS).Got? {
      GetRest(b[4..], HEADER_WORDS);
      Totals(HEADER_WORDS);
      var b1 := GetWords(b[4..], HEADER_WORDS).rest;
      if |b1| >= DIGEST_SIZE && GetWords(b1[DIGEST_SIZE..], [4, 4]).Got? {
        GetRest(b1[DIGEST_SIZE..], [4, 4]);
        Totals([4, 4]);
      }
    }
  }

  // ---------------------------------------------------------------- inspection and restoration

  /** One turn of the section loop of `turbowasm_artifact_inspect`. */
  method LookAt(seen: Seen, kind: nat, body: seq<Byte>, before: seq<Byte>, last: bool, flags: nat, source: nat,
      hash: Hash) returns (next: Option<Seen>)
    ensures next == Look(seen, kind, body, before, last, flags, source, hash)
  {
    hide ReadSummary, ReadCore, ReadState;
    var r := new Reader(body);
    var ok;
    if kind == SUMMARY_SECTION {
      if seen.summary.Some? || |body| != SUMMARY_SIZE {
        return None;
      }
      var s;
      ok, s := r.ReadSummarySection();
      if !ok || r.offset != |body| {
        return None;
      }
      return Some(seen.(summary := Some(s)));
    } else if kind == CORE_SECTION {
      if seen.core.Some? {
        return None;
      }
      var c;
      ok, c := r.ReadCoreSection(source);
      if !ok || r.offset != |body| {
        return None;
      }
      return Some(seen.(core := Some(c)));
    } else if kind == STATE_SECTION {
      if seen.state.Some? {
        return None;
      }
      var s;
      ok, s := r.ReadStateSection(source);
      if !ok || r.offset != |body| {
        return None;
      }
      return Some(seen.(state := Some(s)));
    } else if kind == SEAL_SECTION {
      if seen.seal || flags / 2 % 2 == 0 || !last || |body| != DIGEST_SIZE || hash(before) != body {
        return None;
      }
      return Some(seen.(seal := true));
    }
    return None;
  }

  /** The section loop; nothing may follow the last section. */
  method LookAtSections(r: Reader, a: seq<Byte>, n: nat, flags: nat, source: nat, hash: Hash)
      returns (result: Option<Seen>)
    requires r.Valid() && r.data == a
    modifies r
    ensures result == Sections(a, old(r.Rest()), n, Seen(None, None, None, false), flags, source, hash)
  {
    hide Look, TakeSection;
    var seen, i := Seen(None, None, None, false), 0;
    ghost var target := Sections(a, r.Rest(), n, seen, flags, source, hash);
    while i < n
      invariant 0 <= i <= n && r.Valid() && target == Sections(a, r.Rest(), n - i, seen, flags, source, hash)
    {
      var at := r.offset;
      var ok, kind, body := r.GetSection();
      if !ok {
        return None;
      }
      var next := LookAt(seen, kind, body, a[..at], i + 1 == n, flags, source, hash);
      if next.None? {
        return None;
      }
      seen := next.value;
      i := i + 1;
    }
    return if r.offset != |a| then None else Some(seen);
  }

  method Judge(h: Header, all: Option<Seen>) returns (result: Inspected)
    ensures result == Verdict(h, all)
  {
    hide CoreConsistent, StateConsistent;
    if all.None? || all.value.summary.None? {
      return Rejected(MalformedModule);
    }
    var seen := all.value;
    if h.flags % 2 == 1 && (seen.core.None? || seen.state.None?) {
      return Rejected(MalformedModule);
    }
    if h.flags / 2 % 2 == 1 && !seen.seal {
      return Rejected(MalformedModule);
    }
    if seen.core.Some? && !CoreConsistent(seen.summary.value, seen.core.value) {
      return Rejected(MalformedModule);
    }
    if seen.state.Some? && !StateConsistent(seen.summary.value, seen.state.value, seen.core) {
      return Rejected(MalformedModule);
    }
    return Accepted(h, seen);
  }

  /** The checks and the sections behind the header `h`. */
  method InspectBody(r: Reader, a: seq<Byte>, h: Header, source: seq<Byte>, hash: Hash) returns (result: Inspected)
    requires r.Valid() && r.data == a && ReadHeader(a) == Got(h, r.Rest())
    modifies r
    ensures result == Inspect(a, source, hash)
  {
    hide ReadHeader, Sections, Verdict;
    if h.schema != SCHEMA || h.headerSize != HEADER_SIZE || h.reserved != 0 || h.flags > COMPLETE + SEALED {
      return Rejected(Unsupported);
    }
    if h.fingerprint != FINGERPRINT || h.sourceSize != |source| {
      return Rejected(Unsupported);
    }
    if hash(source) != h.digest {
      return Rejected(TypeMismatch);
    }
    var all := LookAtSections(r, a, h.sections, h.flags, |source|, hash);
    result := Judge(h, all);
  }

  /** `turbowasm_artifact_inspect`. */
  method InspectArtifact(a: seq<Byte>, source: seq<Byte>, hash: Hash) returns (result: Inspected)
    ensures result == Inspect(a, source, hash)
  {
    hide ReadHeader, Sections, Verdict;
    var r := new Reader(a);
    var ok, h := r.GetHeader();
    if !ok {
      return Rejected(MalformedModule);
    }
    result := InspectBody(r, a, h, source, hash);
  }

  /** `artifact_find_section`. */
  method FindSection(a: seq<Byte>, n: nat, wanted: nat) returns (found: Option<seq<Byte>>)
    requires |a| >= HEADER_SIZE
    ensures found == Find(a[HEADER_SIZE..], n, wanted)
  {
    hide TakeSection;
    var r := new Reader(a[HEADER_SIZE..]);
    var i := 0;
    while i < n
      invariant 0 <= i <= n && r.Valid() && fresh(r)
      invariant Find(a[HEADER_SIZE..], n, wanted) == Find(r.Rest(), n - i, wanted)
    {
      var ok, kind, body := r.GetSection();
      if !ok {
        return None;
      }
      if kind == wanted {
        return Some(body);
      }
      i := i + 1;
    }
    return None;
  }

  /** `turbowasm_artifact_restore`. */
  method RestoreArtifact(a: seq<Byte>, source: seq<Byte>, hash: Hash) returns (result: Restored)
    ensures result == Restore(a, source, hash)
  {
    hide Inspect, Find, RestoreCore, RestoreState, ContextBindable, BoundCore, BoundState, Plain;
    InspectFacts(a, source, hash);
    var info := InspectArtifact(a, source, hash);
    if info.Rejected? {
      return Failure(info.status);
    }
    if info.header.flags % 2 == 0 || info.seen.core.None? || info.seen.state.None? {
      return Failure(Unsupported);
    }
    var core := FindSection(a, info.header.sections, CORE_SECTION);
    var state := FindSection(a, info.header.sections, STATE_SECTION);
    if core.None? || state.None? {
      return Failure(MalformedModule);
    }
    var r := new Reader(core.value);
    var status, c := r.RestoreCoreSection(|source|);
    if status != Ok || r.offset != |core.value| {
      return Failure(if status != Ok then status else MalformedModule);
    }
    r := new Reader(state.value);
    var s;
    status, s := r.RestoreStateSection(|source|, Plain(c), |c.functions|);
    if status != Ok || r.offset != |state.value| {
      return Failure(if status != Ok then status else MalformedModule);
    }
    var ok, boundCore, boundState := BindContext(c, s);
    if !ok {
      return Failure(MalformedModule);
    }
    return Success(info.seen.summary.value, boundCore, boundState);
  }

  lemma {:induction false} InspectFacts(a: seq<Byte>, source: seq<Byte>, hash: Hash)
    ensures Inspect(a, source, hash).Accepted? ==> HEADER_SIZE <= |a| && Inspect(a, source, hash).seen.summary.Some?
  {
    hide ReadHeader, Sections;
  }
}
