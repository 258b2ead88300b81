/**
  The artifact writer as it runs (src/artifact.c): a cursor over an output buffer,
  which also measures when there is no buffer.
 */
module ArtifactWriter {
  import opened Common
  import opened Bytes
  import opened ArtifactWords
  import opened ArtifactRecords
  import opened ArtifactLists
  import opened DefinedTypes
  import opened ArtifactCore
  import opened ArtifactState
  import opened ArtifactFile

  // ---------------------------------------------------------------- what can be written

  /** Every span that core metadata mentions lies inside the source. */
  predicate CoreInside(c: Core, source: nat) {
    && (forall x :: x in c.functions ==> Inside(x.code, source))
    && (forall x :: x in c.imports ==> ImportInside(x, source))
    && (forall x :: x in c.exports ==> Inside(x.name, source))
  }

  predicate ImportInside(x: Import, source: nat) {
    Inside(x.mod, source) && Inside(x.name, source)
  }

  predicate StateInside(s: State, source: nat) {
    && (forall x :: x in s.globals ==> Inside(x.initializer, source))
    && (forall x :: x in s.tables ==> Inside(x.initializer, source))
    && (forall x :: x in s.data ==> DataInside(x, source))
    && (forall x :: x in s.elements ==> ElementInside(x, source))
  }

  predicate DataInside(x: DataSegment, source: nat) {
    Inside(x.data, source) && Inside(x.offset.span, source)
  }

  predicate ItemInside(x: Item, source: nat) {
    Inside(x.expression.span, source)
  }

  predicate ElementInside(x: Element, source: nat) {
    Inside(x.offset.span, source) && forall y :: y in x.items ==> ItemInside(y, source)
  }

  // ---------------------------------------------------------------- the cursor

  class Writer {
    var data: array?<Byte>
    var size: nat
    var offset: nat
    ghost var out: seq<Byte>

    ghost predicate Valid()
      reads this, data
    {
      && offset == |out| <= size
      && (data != null ==> size <= data.Length && data[..offset] == out)
    }

    /** A buffer to write to, or none to measure. */
    constructor (buffer: array?<Byte>, capacity: nat)
      requires buffer != null ==> capacity <= buffer.Length
      ensures Valid() && out == [] && data == buffer && size == capacity
    {
      data, size, offset, out := buffer, capacity, 0, [];
    }

    /** The byte loop of `put_u64`. */
    static method Store(buffer: array<Byte>, at: nat, n: nat, value: nat)
      requires at + n <= buffer.Length
      modifies buffer
      ensures buffer[..at] == old(buffer[..at]) && buffer[at..at + n] == Le(value, n)
    {
      var i, v := 0, value;
      while i < n
        invariant 0 <= i <= n && buffer[..at] == old(buffer[..at])
        invariant buffer[at..at + i] + Le(v, n - i) == Le(value, n)
      {
        LeStep(v, n - i);
        ghost var before := buffer[at..at + i];
        buffer[at + i] := v % 256;
        assert buffer[at..at + i + 1] == before + [v % 256];
        Associate(before, [v % 256], Le(v / 256, n - i - 1));
        v := v / 256;
        i := i + 1;
      }
      assert Le(v, 0) == [] && buffer[at..at + n] + [] == buffer[at..at + n];
    }

    /** `put_u32` and `put_u64`: a word goes out if there is room for it. */
    method PutWord(w: Word) returns (ok: bool)
      requires Valid()
      modifies this`offset, this`out, data
      ensures Valid()
      ensures ok == (old(|out|) + Width(w) <= size)
      ensures ok ==> out == old(out) + Le(w.v, Width(w))
    {
      hide Le;
      var n := Width(w);
      if size - offset < n {
        return false;
      }
      if data != null {
        Store(data, offset, n, w.v);
        assert data[..offset + n] == data[..offset] + data[offset..offset + n];
      }
      offset := offset + n;
      out := out + Le(w.v, n);
      return true;
    }

    /** A chain of puts that stops at the first that does not fit. */
    method PutAll(ws: seq<Word>) returns (ok: bool)
      requires Valid()
      modifies this`offset, this`out, data
      ensures Valid()
      ensures ok == (old(|out|) + |PutWords(ws)| <= size)
      ensures ok ==> out == old(out) + PutWords(ws)
    {
      hide Le;
      var i := 0;
      while i < |ws|
        invariant 0 <= i <= |ws| && Valid() && old(out) + PutWords(ws) == out + PutWords(ws[i..])
      {
        ghost var before := out;
        assert ws[i..][1..] == ws[i + 1..];
        ok := PutWord(ws[i]);
        if !ok {
          return;
        }
        Associate(before, Le(ws[i].v, Width(ws[i])), PutWords(ws[i + 1..]));
        i := i + 1;
      }
      assert ws[i..] == [] && out + [] == out;
      return true;
    }

    /** `put_bytes`. */
    method PutBytes(p: seq<Byte>) returns (ok: bool)
      requires Valid()
      modifies this`offset, this`out, data
      ensures Valid()
      ensures ok == (old(|out|) + |p| <= size)
      ensures ok ==> out == old(out) + p
    {
      if |p| > size - offset {
        return false;
      }
      if data != null {
        forall i | 0 <= i < |p| {
          data[offset + i] := p[i];
        }
        assert data[..offset + |p|] == data[..offset] + p;
      }
      offset := offset + |p|;
      out := out + p;
      return true;
    }

    /** A loop over plain records, each of which may have spans to check. */
    method PutList<T>(xs: seq<T>, words: T -> seq<Word>, inside: T -> bool) returns (ok: bool)
      requires Valid()
      modifies this`offset, this`out, data
      ensures Valid()
      ensures ok == ((forall x :: x in xs ==> inside(x)) && old(|out|) + |PutRecords(xs, words)| <= size)
      ensures ok ==> out == old(out) + PutRecords(xs, words)
    {
      hide PutWords;
      var i := 0;
      while i < |xs|
        invariant 0 <= i <= |xs| && Valid() && old(out) + PutRecords(xs, words) == out + PutRecords(xs[i..], words)
        invariant forall x :: x in xs[..i] ==> inside(x)
      {
        ghost var before := out;
        assert xs[i..][1..] == xs[i + 1..] && xs[..i + 1] == xs[..i] + [xs[i]];
        if !inside(xs[i]) {
          assert xs[i] in xs;
          return false;
        }
        ok := PutAll(words(xs[i]));
        if !ok {
          return;
        }
        Associate(before, PutWords(words(xs[i])), PutRecords(xs[i + 1..], words));
        i := i + 1;
      }
      assert xs[i..] == [] && out + [] == out && xs[..i] == xs;
      return true;
    }

    // -------------------------------------------------------------- records with lists inside

    method PutTypeRecord(t: FuncType) returns (ok: bool)
      requires Valid()
      modifies this`offset, this`out, data
      ensures Valid()
      ensures ok == (old(|out|) + |PutType(t)| <= size)
      ensures ok ==> out == old(out) + PutType(t)
    {
      hide PutWords, PutRecords, TypeWords;
      ghost var w, p, r, f := PutWords(TypeWords(t)), PutRecords(t.params, TypedWords),
        PutRecords(t.results, TypedWords), PutRecords(t.fields, FieldWords);
      ok := PutAll(TypeWords(t));
      if ok {
        ok := PutList(t.params, TypedWords, _ => true);
      }
      if ok {
        ok := PutList(t.results, TypedWords, _ => true);
      }
      if ok {
        ok := PutList(t.fields, FieldWords, _ => true);
        assert ok ==> out == old(out) + (w + (p + (r + f)));
      }
    }

    method PutControlRecord(c: Control) returns (ok: bool)
      requires Valid()
      modifies this`offset, this`out, data
      ensures Valid()
      ensures ok == (old(|out|) + |PutControl(c)| <= size)
      ensures ok ==> out == old(out) + PutControl(c)
    {
      hide PutWords, PutRecords, ControlWords;
      ok := PutAll(ControlWords(c));
      if ok {
        ok := PutList(c.catches, CatchWords, _ => true);
        assert ok ==> out == old(out) + (PutWords(ControlWords(c)) + PutRecords(c.catches, CatchWords));
      }
    }

    method PutControlList(cs: seq<Control>) returns (ok: bool)
      requires Valid()
      modifies this`offset, this`out, data
      ensures Valid()
      ensures ok == (old(|out|) + |PutControls(cs)| <= size)
      ensures ok ==> out == old(out) + PutControls(cs)
    {
      hide PutControl;
      var i := 0;
      while i < |cs|
        invariant 0 <= i <= |cs| && Valid() && old(out) + PutMany(cs, 0, PutControl) == out + PutMany(cs, i, PutControl)
      {
        ghost var before := out;
        ok := PutControlRecord(cs[i]);
        if !ok {
          return;
        }
        Associate(before, PutControl(cs[i]), PutMany(cs, i + 1, PutControl));
        i := i + 1;
      }
      assert out + [] == out;
      return true;
    }

    /** A function, unless its code lies outside the source. */
    method PutFunctionRecord(x: Function, source: nat) returns (ok: bool)
      requires Valid()
      modifies this`offset, this`out, data
      ensures Valid()
      ensures ok == (Inside(x.code, source) && old(|out|) + |PutFunction(x)| <= size)
      ensures ok ==> out == old(out) + PutFunction(x)
    {
      hide PutWords, PutRecords, FunctionWords, PutControls, Inside;
      if !Inside(x.code, source) {
        return false;
      }
      ok := PutAll(FunctionWords(x));
      if ok {
        ok := PutList(x.locals, TypedWords, _ => true);
      }
      if ok {
        ok := PutControlList(x.controls);
        assert ok ==>
            out == old(out) +
                   (PutWords(FunctionWords(x)) + (PutRecords(x.locals, TypedWords) + PutControls(x.controls)));
      }
    }

    method PutElementRecord(x: Element, source: nat) returns (ok: bool)
      requires Valid()
      modifies this`offset, this`out, data
      ensures Valid()
      ensures ok == (ElementInside(x, source) && old(|out|) + |PutElement(x)| <= size)
      ensures ok ==> out == old(out) + PutElement(x)
    {
      hide PutWords, PutRecords, ElementTypeWords, ElementOffsetWords, Inside, ItemInside;
      ok := PutAll(ElementTypeWords(x));
      if ok {
        ok := Inside(x.offset.span, source);
      }
      if ok {
        ok := PutAll(ElementOffsetWords(x));
      }
      if ok {
        ok := PutList(x.items, ItemWords, y => ItemInside(y, source));
        assert ok ==>
            out ==
            old(out)
            + (PutWords(ElementTypeWords(x)) + (PutWords(ElementOffsetWords(x)) + PutRecords(x.items, ItemWords)));
      }
    }

    method PutTypeList(ts: seq<FuncType>) returns (ok: bool)
      requires Valid()
      modifies this`offset, this`out, data
      ensures Valid()
      ensures ok == (old(|out|) + |PutTypes(ts)| <= size)
      ensures ok ==> out == old(out) + PutTypes(ts)
    {
      hide PutType;
      var i := 0;
      while i < |ts|
        invariant 0 <= i <= |ts| && Valid() && old(out) + PutMany(ts, 0, PutType) == out + PutMany(ts, i, PutType)
      {
        ghost var before := out;
        ok := PutTypeRecord(ts[i]);
        if !ok {
          return;
        }
        Associate(before, PutType(ts[i]), PutMany(ts, i + 1, PutType));
        i := i + 1;
      }
      assert out + [] == out;
      return true;
    }

    method PutFunctionList(xs: seq<Function>, source: nat) returns (ok: bool)
      requires Valid()
      modifies this`offset, this`out, data
      ensures Valid()
      ensures ok == ((forall x :: x in xs ==> Inside(x.code, source)) && old(|out|) + |PutFunctions(xs)| <= size)
      ensures ok ==> out == old(out) + PutFunctions(xs)
    {
      hide PutFunction, Inside;
      var i := 0;
      while i < |xs|
        invariant 0 <= i <= |xs| && Valid()
        invariant old(out) + PutMany(xs, 0, PutFunction) == out + PutMany(xs, i, PutFunction)
        invariant forall x :: x in xs[..i] ==> Inside(x.code, source)
      {
        ghost var before := out;
        assert xs[..i + 1] == xs[..i] + [xs[i]] && xs[i] in xs;
        ok := PutFunctionRecord(xs[i], source);
        if !ok {
          return;
        }
        Associate(before, PutFunction(xs[i]), PutMany(xs, i + 1, PutFunction));
        i := i + 1;
      }
      assert out + [] == out && xs[..i] == xs;
      return true;
    }

    method PutElementList(xs: seq<Element>, source: nat) returns (ok: bool)
      requires Valid()
      modifies this`offset, this`out, data
      ensures Valid()
      ensures ok == ((forall x :: x in xs ==> ElementInside(x, source)) && old(|out|) + |PutElements(xs)| <= size)
      ensures ok ==> out == old(out) + PutElements(xs)
    {
      hide PutElement, ElementInside;
      var i := 0;
      while i < |xs|
        invariant 0 <= i <= |xs| && Valid() && old(out) + PutMany(xs, 0, PutElement) == out + PutMany(xs, i, PutElement)
        invariant forall x :: x in xs[..i] ==> ElementInside(x, source)
      {
        ghost var before := out;
        assert xs[..i + 1] == xs[..i] + [xs[i]] && xs[i] in xs;
        ok := PutElementRecord(xs[i], source);
        if !ok {
          return;
        }
        Associate(before, PutElement(xs[i]), PutMany(xs, i + 1, PutElement));
        i := i + 1;
      }
      assert out + [] == out && xs[..i] == xs;
      return true;
    }

    // -------------------------------------------------------------- sections

    /** `write_core_metadata`. */
    method WriteCore(c: Core, source: nat) returns (ok: bool)
      requires Valid()
      modifies this`offset, this`out, data
      ensures Valid()
      ensures ok == (CoreInside(c, source) && old(|out|) + |PutCore(c)| <= size)
      ensures ok ==> out == old(out) + PutCore(c)
    {
      hide PutWords, PutRecords, CoreWords, PutTypes, PutFunctions, Inside, ImportInside;
      ghost var w, t, f := PutWords(CoreWords(c)), PutTypes(c.types), PutFunctions(c.functions);
      ghost var i, e, m := PutRecords(c.imports, ImportWords), PutRecords(c.exports, ExportWords),
        PutRecords(c.memories, MemoryWords);
      ok := PutAll(CoreWords(c));
      if ok {
        ok := PutTypeList(c.types);
      }
      if ok {
        ok := PutFunctionList(c.functions, source);
      }
      if ok {
        ok := PutList(c.imports, ImportWords, x => ImportInside(x, source));
      }
      if ok {
        ok := PutList(c.exports, ExportWords, (x: Export) => Inside(x.name, source));
      }
      if ok {
        ok := PutList(c.memories, MemoryWords, _ => true);
        assert ok ==> out == old(out) + (w + (t + (f + (i + (e + m)))));
      }
    }

    method PutSegments(s: State, source: nat) returns (ok: bool)
      requires Valid()
      modifies this`offset, this`out, data
      ensures Valid()
      ensures var e := PutRecords(s.data, DataWords) + (PutElements(s.elements) + s.refs);
              && ok == ((forall x :: x in s.data ==> DataInside(x, source))
                   && (forall x :: x in s.elements ==> ElementInside(x, source)) && old(|out|) + |e| <= size)
              && (ok ==> out == old(out) + e)
    {
      hide PutRecords, PutElements, DataInside, ElementInside;
      ok := PutList(s.data, DataWords, x => DataInside(x, source));
      if ok {
        ok := PutElementList(s.elements, source);
      }
      if ok {
        ok := PutBytes(s.refs);
        assert ok ==> out == old(out) + (PutRecords(s.data, DataWords) + (PutElements(s.elements) + s.refs));
      }
    }

    /** `write_state_metadata`. */
    method WriteState(s: State, source: nat) returns (ok: bool)
      requires Valid()
      modifies this`offset, this`out, data
      ensures Valid()
      ensures ok == (StateInside(s, source) && old(|out|) + |PutState(s)| <= size)
      ensures ok ==> out == old(out) + PutState(s)
    {
      hide PutWords, PutRecords, StateWords, PutElements, Inside, DataInside, ElementInside;
      ghost var w, g, t := PutWords(StateWords(s)), PutRecords(s.globals, GlobalWords),
        PutRecords(s.tables, TableWords);
      ghost var a, d := PutRecords(s.tags, TagWords),
        PutRecords(s.data, DataWords) + (PutElements(s.elements) + s.refs);
      ok := PutAll(StateWords(s));
      if ok {
        ok := PutList(s.globals, GlobalWords, (x: Global) => Inside(x.initializer, source));
      }
      if ok {
        ok := PutList(s.tables, TableWords, (x: Table) => Inside(x.initializer, source));
      }
      if ok {
        ok := PutList(s.tags, TagWords, _ => true);
      }
      if ok {
        ok := PutSegments(s, source);
        assert ok ==> out == old(out) + (w + (g + (t + (a + d))));
      }
    }

    /** The magic and the header fields. */
    method WriteHeader(h: Header) returns (ok: bool)
      requires Valid()
      modifies this`offset, this`out, data
      ensures Valid()
      ensures ok == (old(|out|) + |PutHeader(h)| <= size)
      ensures ok ==> out == old(out) + PutHeader(h)
    {
      hide PutWords, HeaderWords;
      ghost var w, t := PutWords(HeaderWords(h)), PutWords([U32(h.sections), U32(h.reserved)]);
      ok := PutBytes(MAGIC);
      if ok {
        ok := PutAll(HeaderWords(h));
      }
      if ok {
        ok := PutBytes(h.digest);
      }
      if ok {
        ok := PutAll([U32(h.sections), U32(h.reserved)]);
        assert ok ==> out == old(out) + (MAGIC + (w + (h.digest + t)));
      }
    }

    /** The summary section with its section header. */
    method WriteSummary(s: Summary) returns (ok: bool)
      requires Valid()
      modifies this`offset, this`out, data
      ensures Valid()
      ensures ok == (old(|out|) + |PutSection(SUMMARY_SECTION, PutSummary(s))| <= size)
      ensures ok ==> out == old(out) + PutSection(SUMMARY_SECTION, PutSummary(s))
    {
      SummarySize(s);
      hide PutWords, ImportCounts, ItemCounts, FlagCounts;
      ghost var w, p, q, r := PutWords([U32(SUMMARY_SECTION), U32(SUMMARY_SIZE)]), PutWords(ImportCounts(s)),
        PutWords(ItemCounts(s)), PutWords(FlagCounts(s));
      ok := PutAll([U32(SUMMARY_SECTION), U32(SUMMARY_SIZE)]);
      if ok {
        ok := PutAll(ImportCounts(s));
      }
      if ok {
        ok := PutAll(ItemCounts(s));
      }
      if ok {
        ok := PutAll(FlagCounts(s));
        assert ok ==> out == old(out) + (w + (p + (q + r)));
      }
    }

    method WriteCoreSection(c: Core, length: nat, source: nat) returns (ok: bool)
      requires Valid() && length == |PutCore(c)|
      modifies this`offset, this`out, data
      ensures Valid()
      ensures ok == (CoreInside(c, source) && old(|out|) + |PutSection(CORE_SECTION, PutCore(c))| <= size)
      ensures ok ==> out == old(out) + PutSection(CORE_SECTION, PutCore(c))
    {
      hide PutWords, PutCore, CoreInside;
      ok := PutAll([U32(CORE_SECTION), U32(length)]);
      if ok {
        ok := WriteCore(c, source);
        assert ok ==> out == old(out) + (PutWords([U32(CORE_SECTION), U32(length)]) + PutCore(c));
      }
    }

    method WriteStateSection(s: State, length: nat, source: nat) returns (ok: bool)
      requires Valid() && length == |PutState(s)|
      modifies this`offset, this`out, data
      ensures Valid()
      ensures ok == (StateInside(s, source) && old(|out|) + |PutSection(STATE_SECTION, PutState(s))| <= size)
      ensures ok ==> out == old(out) + PutSection(STATE_SECTION, PutState(s))
    {
      hide PutWords, PutState, StateInside;
      ok := PutAll([U32(STATE_SECTION), U32(length)]);
      if ok {
        ok := WriteState(s, source);
        assert ok ==> out == old(out) + (PutWords([U32(STATE_SECTION), U32(length)]) + PutState(s));
      }
    }

    /** The seal over everything written so far. */
    method WriteSeal(digest: seq<Byte>) returns (ok: bool)
      requires Valid() && |digest| == DIGEST_SIZE
      modifies this`offset, this`out, data
      ensures Valid()
      ensures ok == (old(|out|) + |PutSection(SEAL_SECTION, digest)| <= size)
      ensures ok ==> out == old(out) + PutSection(SEAL_SECTION, digest)
    {
      hide PutWords;
      ok := PutAll([U32(SEAL_SECTION), U32(DIGEST_SIZE)]);
      if ok {
        ok := PutBytes(digest);
        assert ok ==> out == old(out) + (PutWords([U32(SEAL_SECTION), U32(DIGEST_SIZE)]) + digest);
      }
    }
  }

  // ---------------------------------------------------------------- measuring and writing

  /** `measure_core_metadata` and `measure_state_metadata`: the writers, without a buffer. */
  method MeasureSections(m: Mod) returns (ok: bool, core: nat, state: nat)
    ensures ok == (CoreInside(m.core, |m.source|) && StateInside(m.state, |m.source|) && |PutCore(m.core)| <= MAX64
              && |PutState(m.state)| <= MAX64)
    ensures ok ==> core == |PutCore(m.core)| && state == |PutState(m.state)|
  {
    hide PutCore, PutState, CoreInside, StateInside;
    core, state := 0, 0;
    var w := new Writer(null, MAX64);
    ok := w.WriteCore(m.core, |m.source|);
    if !ok {
      return;
    }
    core := w.offset;
    w := new Writer(null, MAX64);
    ok := w.WriteState(m.state, |m.source|);
    state := w.offset;
  }

  /** `turbowasm_artifact_measure`. */
  method Measure(m: Mod) returns (status: Status, required: nat)
    ensures status == Ok <==>
            && CoreInside(m.core, |m.source|) && StateInside(m.state, |m.source|)
            && FIXED_SIZE + |PutCore(m.core)| + |PutState(m.state)| <= MAX64
    ensures status == Ok ==> forall hash :: Digest(hash) ==> required == |Artifact(m, hash)|
    ensures status == Ok || status == OutOfMemory
  {
    hide PutCore, PutState, CoreInside, StateInside, Artifact;
    required := 0;
    var ok, core, state := MeasureSections(m);
    if !ok || core > MAX64 - FIXED_SIZE || state > MAX64 - FIXED_SIZE - core {
      return OutOfMemory, 0;
    }
    required := FIXED_SIZE + core + state;
    status := Ok;
    forall hash | Digest(hash)
      ensures required == |Artifact(m, hash)|
    {
      MeasuredSize(m, hash);
    }
  }

  /** What `turbowasm_artifact_write` needs. */
  predicate Fits(m: Mod, capacity: nat) {
    && CoreInside(m.core, |m.source|) && StateInside(m.state, |m.source|)
    && |PutCore(m.core)| <= MAX32 && |PutState(m.state)| <= MAX32
    && FIXED_SIZE + |PutCore(m.core)| + |PutState(m.state)| <= capacity
  }

  /** `turbowasm_artifact_write`: it fills the buffer with the artifact exactly if
      everything fits, and its consistency failure never happens. */
  method Write(m: Mod, hash: Hash, output: array?<Byte>, capacity: nat) returns (status: Status, required: nat)
    requires Digest(hash) && (output != null ==> capacity <= output.Length)
    modifies output
    ensures status == Ok <==> output != null && Fits(m, capacity)
    ensures status == Ok ==> required == |Artifact(m, hash)| <= output.Length && output[..required] == Artifact(m, hash)
    ensures status == Ok || status == OutOfMemory
  {
    hide PutCore, PutState, CoreInside, StateInside, PutSummary, PutSection, PutHeader;
    var ok, core, state := MeasureSections(m);
    required := 0;
    if !ok || core > MAX32 || state > MAX32 || core > MAX64 - FIXED_SIZE || state > MAX64 - FIXED_SIZE - core {
      return OutOfMemory, required;
    }
    required := FIXED_SIZE + core + state;
    if output == null || capacity < required {
      return OutOfMemory, required;
    }
    ArtifactSizes(m, hash);
    var w := new Writer(output, capacity);
    ok := w.WriteHeader(HeaderOf(m, hash));
    assert ok;
    ok := w.WriteSummary(m.summary);
    assert ok;
    ok := w.WriteCoreSection(m.core, core, |m.source|);
    assert ok;
    ok := w.WriteStateSection(m.state, state, |m.source|);
    assert ok;
    assert w.out == Prefix(m, hash);
    ok := w.WriteSeal(hash(output[..w.offset]));
    assert ok;
    return Ok, required;
  }

  lemma {:induction false} ArtifactSizes(m: Mod, hash: Hash)
    requires Digest(hash)
    ensures |PutHeader(HeaderOf(m, hash))| == HEADER_SIZE
    ensures |PutSection(SUMMARY_SECTION, PutSummary(m.summary))| == 8 + SUMMARY_SIZE
    ensures |PutSection(CORE_SECTION, PutCore(m.core))| == 8 + |PutCore(m.core)|
    ensures |PutSection(STATE_SECTION, PutState(m.state))| == 8 + |PutState(m.state)|
    ensures |PutSection(SEAL_SECTION, hash(Prefix(m, hash)))| == 8 + DIGEST_SIZE
    ensures |Artifact(m, hash)| == FIXED_SIZE + |PutCore(m.core)| + |PutState(m.state)|
  {
    hide PutCore, PutState, PutSection, PutHeader, PutSummary;
    MeasuredSize(m, hash);
    SummarySize(m.summary);
    SectionSize(SUMMARY_SECTION, PutSummary(m.summary));
    SectionSize(CORE_SECTION, PutCore(m.core));
    SectionSize(STATE_SECTION, PutState(m.state));
    SectionSize(SEAL_SECTION, hash(Prefix(m, hash)));
  }

  lemma {:induction false} LeStep(v: nat, n: nat)
    requires n > 0
    ensures Le(v, n) == [v % 256] + Le(v / 256, n - 1)
  {
  }
}
