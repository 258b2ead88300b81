/**
  The artifact file (src/artifact.c): a header, a summary section, the two
  metadata sections and a seal, and the inspection and restoration of any bytes.
  SHA-256 is a parameter of which only the digest size is used.
 */
module ArtifactFile {
  import opened Common
  import opened Bytes
  import opened ArtifactWords
  import opened ArtifactRecords
  import opened ArtifactLists
  import opened ArtifactCore
  import opened ArtifactState
  import opened ArtifactBinding

  type Hash = seq<Byte> -> seq<Byte>

  ghost predicate Digest(hash: Hash) {
    forall b :: |hash(b)| == DIGEST_SIZE
  }

  const DIGEST_SIZE := 32
  const HEADER_SIZE := 72
  const SUMMARY_SIZE := 88
  const FIXED_SIZE := HEADER_SIZE + 4 * 8 + SUMMARY_SIZE + DIGEST_SIZE

  const SCHEMA := 2
  const COMPLETE := 1
  const SEALED := 2
  const FINGERPRINT := 0x7fff

  const SUMMARY_SECTION := 1
  const CORE_SECTION := 2
  const STATE_SECTION := 3
  const SEAL_SECTION := 4

  // ---------------------------------------------------------------- the summary

  /** How many items are imported and defined, by kind. */
  datatype Defined = Defined(functions: nat, tables: nat, memories: nat, globals: nat, tags: nat)

  datatype Summary = Summary(mask: nat, custom: nat, types: nat, imported: Defined, defined: Defined, code: nat,
      exports: nat, elements: nat,
                             hasStart: bool, start: nat, hasDataCount: bool, dataCount: nat, dataSegments: nat)

  const SUMMARY_IMPORTS := [4, 8, 4, 4, 4, 4, 4, 4]
  const SUMMARY_ITEMS := [4, 4, 4, 4, 4, 4, 4, 4]
  const SUMMARY_FLAGS := [4, 4, 4, 4, 4]

  function ImportCounts(s: Summary): seq<Word> {
    [U32(s.mask), U64(s.custom), U32(s.types), U32(s.imported.functions), U32(s.imported.tables),
     U32(s.imported.memories), U32(s.imported.globals), U32(s.imported.tags)]
  }

  function ItemCounts(s: Summary): seq<Word> {
    [U32(s.defined.functions), U32(s.defined.tables), U32(s.defined.memories), U32(s.defined.globals),
     U32(s.defined.tags), U32(s.code), U32(s.exports), U32(s.elements)]
  }

  function FlagCounts(s: Summary): seq<Word> {
    [U32(Flag(s.hasStart)), U32(s.start), U32(Flag(s.hasDataCount)), U32(s.dataCount), U32(s.dataSegments)]
  }

  /** `write_summary`. */
  function PutSummary(s: Summary): seq<Byte> {
    PutWords(ImportCounts(s)) + (PutWords(ItemCounts(s)) + PutWords(FlagCounts(s)))
  }

  /** `read_summary`. */
  function ReadSummary(b: seq<Byte>): Parsed<Summary> {
    var (f, b1) :- GetWords(b, SUMMARY_IMPORTS);
    var (g, b2) :- GetWords(b1, SUMMARY_ITEMS);
    var (h, b3) :- GetWords(b2, SUMMARY_FLAGS);
    if h[0] > 1 || h[2] > 1 then Refused
    else Got(Summary(f[0], f[1], f[2], Defined(f[3], f[4], f[5], f[6], f[7]), Defined(g[0], g[1], g[2], g[3], g[4]),
      g[5], g[6], g[7],
                     h[0] != 0, h[1], h[2] != 0, h[3], h[4]), b3)
  }

  predicate SummaryFits(s: Summary) {
    AllInRange(ImportCounts(s)) && AllInRange(ItemCounts(s)) && AllInRange(FlagCounts(s))
  }

  lemma {:induction false} SummaryShapes(s: Summary)
    ensures Shape(ImportCounts(s)) == SUMMARY_IMPORTS && Shape(ItemCounts(s)) == SUMMARY_ITEMS
    ensures Shape(FlagCounts(s)) == SUMMARY_FLAGS
  {
  }

  lemma {:induction false} SummaryValues(s: Summary)
    ensures var f, g, h := Values(ImportCounts(s)), Values(ItemCounts(s)), Values(FlagCounts(s));
            && |f| == 8 && |g| == 8 && |h| == 5 && h[0] <= 1 && h[2] <= 1
            && Summary(f[0], f[1], f[2], Defined(f[3], f[4], f[5], f[6], f[7]), Defined(g[0], g[1], g[2], g[3], g[4]),
                 g[5], g[6], g[7],
                       h[0] != 0, h[1], h[2] != 0, h[3], h[4]) == s
  {
  }

  lemma {:induction false} SummaryBack(s: Summary, rest: seq<Byte>)
    requires SummaryFits(s)
    ensures ReadSummary(PutSummary(s) + rest) == Got(s, rest)
  {
    SummaryShapes(s);
    SummaryValues(s);
    hide ImportCounts, ItemCounts, FlagCounts, Shape, Values, AllInRange, GetWords, PutWords;
    var p, q, r := PutWords(ImportCounts(s)), PutWords(ItemCounts(s)), PutWords(FlagCounts(s));
    assert PutSummary(s) + rest == p + (q + (r + rest));
    WordsRoundTrip(ImportCounts(s), q + (r + rest));
    WordsRoundTrip(ItemCounts(s), r + rest);
    WordsRoundTrip(FlagCounts(s), rest);
  }

  lemma {:induction false} Totals(a: seq<nat>)
    ensures a == SUMMARY_IMPORTS ==> Total(a) == 36
    ensures a == SUMMARY_ITEMS ==> Total(a) == 32
    ensures a == SUMMARY_FLAGS ==> Total(a) == 20
    ensures a == HEADER_WORDS ==> Total(a) == 28
    ensures a == [4, 4] ==> Total(a) == 8
  {
    if |a| > 0 {
      assert Total(a) == a[0] + Total(a[1..]);
      if |a| > 1 {
        assert a[1..][1..] == a[2..] && Total(a[1..]) == a[1] + Total(a[2..]);
        if |a| > 4 {
          assert a[2..][1..] == a[3..] && a[3..][1..] == a[4..] && a[4..][1..] == a[5..];
          assert Total(a[2..]) == a[2] + Total(a[3..]) && Total(a[3..]) == a[3] + Total(a[4..])
              && Total(a[4..]) == a[4] + Total(a[5..]);
          if |a| > 7 {
            assert a[5..][1..] == a[6..] && a[6..][1..] == a[7..] && a[7..][1..] == a[8..];
            assert Total(a[5..]) == a[5] + Total(a[6..]) && Total(a[6..]) == a[6] + Total(a[7..])
                && Total(a[7..]) == a[7] + Total(a[8..]);
          }
        }
      }
    }
  }

  /** The summary section has its declared size. */
  lemma {:induction false} SummarySize(s: Summary)
    ensures |PutSummary(s)| == SUMMARY_SIZE
  {
    SummaryShapes(s);
    hide ImportCounts, ItemCounts, FlagCounts, Shape, PutWords, Total;
    PutWordsSize(ImportCounts(s));
    PutWordsSize(ItemCounts(s));
    PutWordsSize(FlagCounts(s));
    Totals(SUMMARY_IMPORTS);
    Totals(SUMMARY_ITEMS);
    Totals(SUMMARY_FLAGS);
  }

  // ---------------------------------------------------------------- the header

  const MAGIC: seq<Byte> := [84, 87, 86, 65]
  const HEADER_WORDS := [4, 4, 4, 8, 8]

  datatype Header = Header(schema: nat, headerSize: nat, flags: nat, fingerprint: nat, sourceSize: nat,
      digest: seq<Byte>, sections: nat, reserved: nat)

  function HeaderWords(h: Header): seq<Word> {
    [U32(h.schema), U32(h.headerSize), U32(h.flags), U64(h.fingerprint), U64(h.sourceSize)]
  }

  function PutHeader(h: Header): seq<Byte> {
    MAGIC + (PutWords(HeaderWords(h)) + (h.digest + PutWords([U32(h.sections), U32(h.reserved)])))
  }

  function ReadHeader(b: seq<Byte>): (r: Parsed<Header>)
    ensures r.Got? ==> |r.rest| <= |b| && HEADER_SIZE <= |b|
  {
    if |b| < HEADER_SIZE || b[..4] != MAGIC then Refused
    else
      var (f, b1) :- GetWords(b[4..], HEADER_WORDS);
      if |b1| < DIGEST_SIZE then Refused
      else
        var (g, b2) :- GetWords(b1[DIGEST_SIZE..], [4, 4]);
        Got(Header(f[0], f[1], f[2], f[3], f[4], b1[..DIGEST_SIZE], g[0], g[1]), b2)
  }

  predicate HeaderFits(h: Header) {
    AllInRange(HeaderWords(h)) && |h.digest| == DIGEST_SIZE && h.sections <= MAX32 && h.reserved <= MAX32
  }

  lemma {:induction false} HeaderValues(h: Header)
    ensures Shape(HeaderWords(h)) == HEADER_WORDS
    ensures Values(HeaderWords(h)) == [h.schema, h.headerSize, h.flags, h.fingerprint, h.sourceSize]
    ensures Shape([U32(h.sections), U32(h.reserved)]) == [4, 4]
    ensures Values([U32(h.sections), U32(h.reserved)]) == [h.sections, h.reserved]
    ensures h.sections <= MAX32 && h.reserved <= MAX32 ==> AllInRange([U32(h.sections), U32(h.reserved)])
  {
  }

  lemma {:induction false} HeaderSize(h: Header)
    requires |h.digest| == DIGEST_SIZE
    ensures |PutHeader(h)| == HEADER_SIZE
  {
    HeaderValues(h);
    hide HeaderWords, Shape, Values, PutWords, Total;
    PutWordsSize(HeaderWords(h));
    PutWordsSize([U32(h.sections), U32(h.reserved)]);
    Totals(HEADER_WORDS);
    Totals([4, 4]);
  }

  lemma {:induction false} HeaderBack(h: Header, rest: seq<Byte>)
    requires HeaderFits(h)
    ensures ReadHeader(PutHeader(h) + rest) == Got(h, rest)
  {
    HeaderValues(h);
    HeaderSize(h);
    var ws, us := HeaderWords(h), [U32(h.sections), U32(h.reserved)];
    hide HeaderWords, Shape, Values, AllInRange, GetWords, PutWords, Total;
    var p, q := PutWords(ws), PutWords(us);
    var b, b1 := p + (h.digest + (q + rest)), h.digest + (q + rest);
    assert PutHeader(h) + rest == MAGIC + b;
    assert (MAGIC + b)[..4] == MAGIC && (MAGIC + b)[4..] == b;
    WordsRoundTrip(ws, b1);
    assert b1[..DIGEST_SIZE] == h.digest && b1[DIGEST_SIZE..] == q + rest;
    WordsRoundTrip(us, rest);
  }

  // ---------------------------------------------------------------- sections

  function PutSection(kind: nat, body: seq<Byte>): seq<Byte> {
    PutWords([U32(kind), U32(|body|)]) + body
  }

  function TakeSection(b: seq<Byte>): (r: Parsed<(nat, seq<Byte>)>)
    ensures r.Got? ==> |r.rest| <= |b|
  {
    var (f, b1) :- GetWords(b, [4, 4]);
    if f[1] > |b1| then Refused else Got((f[0], b1[..f[1]]), b1[f[1]..])
  }

  lemma {:induction false} SectionSize(kind: nat, body: seq<Byte>)
    ensures |PutSection(kind, body)| == 8 + |body|
  {
    assert Shape([U32(kind), U32(|body|)]) == [4, 4];
    hide Shape, PutWords, Total;
    PutWordsSize([U32(kind), U32(|body|)]);
    Totals([4, 4]);
  }

  lemma {:induction false} SectionBack(kind: nat, body: seq<Byte>, rest: seq<Byte>)
    requires kind <= MAX32 && |body| <= MAX32
    ensures TakeSection(PutSection(kind, body) + rest) == Got((kind, body), rest)
  {
    var ws := [U32(kind), U32(|body|)];
    assert Shape(ws) == [4, 4] && Values(ws) == [kind, |body|] && AllInRange(ws);
    hide GetWords, PutWords, Shape, Values, AllInRange;
    assert PutSection(kind, body) + rest == PutWords(ws) + (body + rest);
    WordsRoundTrip(ws, body + rest);
    assert (body + rest)[..|body|] == body && (body + rest)[|body|..] == rest;
  }

  // ---------------------------------------------------------------- writing

  /** A module: its bytes, and what validation found out about them. */
  datatype Mod = Mod(source: seq<Byte>, summary: Summary, core: Core, state: State)

  function HeaderOf(m: Mod, hash: Hash): Header {
    Header(SCHEMA, HEADER_SIZE, COMPLETE + SEALED, FINGERPRINT, |m.source|, hash(m.source), 4, 0)
  }

  /** Everything that the seal covers. */
  function Prefix(m: Mod, hash: Hash): seq<Byte> {
    PutHeader(HeaderOf(m, hash)) +
    (PutSection(SUMMARY_SECTION, PutSummary(m.summary))
      + (PutSection(CORE_SECTION, PutCore(m.core)) + PutSection(STATE_SECTION, PutState(m.state))))
  }

  function Artifact(m: Mod, hash: Hash): seq<Byte> {
    Prefix(m, hash) + PutSection(SEAL_SECTION, hash(Prefix(m, hash)))
  }

  /** The numbers fit their C types, spans lie inside the source, and the two
      metadata sections are small enough for their size fields. */
  predicate Writable(m: Mod) {
    && |m.source| < MAX64 && SummaryFits(m.summary) && CoreFits(m.core, |m.source|) && StateFits(m.state, |m.source|)
    && |PutCore(m.core)| <= MAX32 && |PutState(m.state)| <= MAX32
  }

  /** The measured size is the size of what is written. */
  lemma {:induction false} MeasuredSize(m: Mod, hash: Hash)
    requires Digest(hash)
    ensures |Artifact(m, hash)| == FIXED_SIZE + |PutCore(m.core)| + |PutState(m.state)|
    ensures |PutHeader(HeaderOf(m, hash))| == HEADER_SIZE && |Prefix(m, hash)| == |Artifact(m, hash)| - 8 - DIGEST_SIZE
  {
    hide PutCore, PutState, PutSection, PutHeader, PutSummary;
    HeaderSize(HeaderOf(m, hash));
    SummarySize(m.summary);
    SectionSize(SUMMARY_SECTION, PutSummary(m.summary));
    SectionSize(CORE_SECTION, PutCore(m.core));
    SectionSize(STATE_SECTION, PutState(m.state));
    SectionSize(SEAL_SECTION, hash(Prefix(m, hash)));
  }

  // ---------------------------------------------------------------- inspection

  /** The sections met so far. */
  datatype Seen = Seen(summary: Option<Summary>, core: Option<CoreCounts>, state: Option<StateCounts>, seal: bool)

  /** One section, with `before` the artifact's bytes in front of it. */
  function Look(seen: Seen, kind: nat, body: seq<Byte>, before: seq<Byte>, last: bool, flags: nat, source: nat,
      hash: Hash): Option<Seen> {
    if kind == SUMMARY_SECTION then
      var s := ReadSummary(body);
      if seen.summary.Some? || |body| != SUMMARY_SIZE || !s.Got? || s.rest != [] then None
      else Some(seen.(summary := Some(s.value)))
    else if kind == CORE_SECTION then
      var c := ReadCore(body, source);
      if seen.core.Some? || !c.Got? || c.rest != [] then None else Some(seen.(core := Some(c.value)))
    else if kind == STATE_SECTION then
      var s := ReadState(body, source);
      if seen.state.Some? || !s.Got? || s.rest != [] then None else Some(seen.(state := Some(s.value)))
    else if kind == SEAL_SECTION then
      if seen.seal || flags / 2 % 2 == 0 || !last || |body| != DIGEST_SIZE || hash(before) != body then None
      else Some(seen.(seal := true))
    else None
  }

  /** The section loop: `b` is what is left of the artifact `a`. */
  function Sections(a: seq<Byte>, b: seq<Byte>, n: nat, seen: Seen, flags: nat, source: nat, hash: Hash): Option<Seen>
    requires |b| <= |a|
    decreases n
  {
    if n == 0 then (if b == [] then Some(seen) else None)
    else
      var s := TakeSection(b);
      if !s.Got? then None
      else
        var next := Look(seen, s.value.0, s.value.1, a[..|a| - |b|], n == 1, flags, source, hash);
        if next.None? then None else Sections(a, s.rest, n - 1, next.value, flags, source, hash)
  }

  function Wrap(n: nat): nat {
    n % 0x1_0000_0000
  }

  /** The metadata counts are the summary's, in 32-bit arithmetic. */
  predicate CoreConsistent(s: Summary, c: CoreCounts) {
    && c.types == s.types && c.functions == Wrap(s.imported.functions + s.defined.functions)
    && c.imports ==
         Wrap(s.imported.functions + s.imported.tables + s.imported.memories + s.imported.globals + s.imported.tags)
    && c.exports == s.exports && c.memories == Wrap(s.imported.memories + s.defined.memories)
  }

  predicate StateConsistent(s: Summary, t: StateCounts, core: Option<CoreCounts>) {
    && t.globals == Wrap(s.imported.globals + s.defined.globals)
    && t.tables == Wrap(s.imported.tables + s.defined.tables)
    && t.tags == Wrap(s.imported.tags + s.defined.tags) && t.data == s.dataSegments && t.elements == s.elements
    && t.hasDataCount == s.hasDataCount && t.dataCount == s.dataCount
    && (t.refs != 0 ==> core.Some? && t.refs == core.value.functions)
  }

  datatype Inspected = Rejected(status: Status) | Accepted(header: Header, seen: Seen)

  /** What is asked of the sections together. */
  function Verdict(head: Header, seen: Option<Seen>): (r: Inspected)
    ensures r.Accepted? ==> r.seen.summary.Some?
  {
    if seen.None? || seen.value.summary.None? then Rejected(MalformedModule)
    else
      var s := seen.value;
      if (head.flags % 2 == 1 && (s.core.None? || s.state.None?)) || (head.flags / 2 % 2 == 1 && !s.seal) ||
         (s.core.Some? && !CoreConsistent(s.summary.value, s.core.value)) ||
         (s.state.Some? && !StateConsistent(s.summary.value, s.state.value, s.core)) then Rejected(MalformedModule)
      else Accepted(head, s)
  }

  /** `turbowasm_artifact_inspect`. */
  function Inspect(a: seq<Byte>, source: seq<Byte>, hash: Hash): (r: Inspected)
    ensures r.Accepted? ==> HEADER_SIZE <= |a| && r.seen.summary.Some?
  {
    var h := ReadHeader(a);
    if !h.Got? then Rejected(MalformedModule)
    else
      var head := h.value;
      if head.schema != SCHEMA || head.headerSize != HEADER_SIZE || head.reserved != 0
        || head.flags > COMPLETE + SEALED ||
         head.fingerprint != FINGERPRINT || head.sourceSize != |source| then Rejected(Unsupported)
      else if hash(source) != head.digest then Rejected(TypeMismatch)
      else
        Verdict(head, Sections(a, h.rest, head.sections, Seen(None, None, None, false), head.flags, |source|, hash))
  }

  // ---------------------------------------------------------------- restoration

  /** `artifact_find_section`: the first section of a kind. */
  function Find(b: seq<Byte>, n: nat, kind: nat): Option<seq<Byte>>
    decreases n
  {
    if n == 0 then None
    else
      var s := TakeSection(b);
      if !s.Got? then None else if s.value.0 == kind then Some(s.value.1) else Find(s.rest, n - 1, kind)
  }

  /** Which types have no results. */
  function Plain(c: Core): seq<bool> {
    seq(|c.types|, i requires 0 <= i < |c.types| => c.types[i].results == [])
  }

  datatype Restored = Failure(status: Status) | Success(summary: Summary, core: Core, state: State)

  /** The status that a reader gives up with. */
  function Fault<T>(p: Parsed<T>): Status {
    if p.Exhausted? then OutOfMemory else MalformedModule
  }

  /** `turbowasm_artifact_restore`. */
  function Restore(a: seq<Byte>, source: seq<Byte>, hash: Hash): Restored {
    var info := Inspect(a, source, hash);
    if info.Rejected? then Failure(info.status)
    else if info.header.flags % 2 == 0 || info.seen.core.None? || info.seen.state.None? then Failure(Unsupported)
    else
      var n, b := info.header.sections, a[HEADER_SIZE..];
      var core, state := Find(b, n, CORE_SECTION), Find(b, n, STATE_SECTION);
      if core.None? || state.None? then Failure(MalformedModule)
      else
        var c := RestoreCore(core.value, |source|);
        if !c.Got? || c.rest != [] then Failure(Fault(c))
        else
          var s := RestoreState(state.value, |source|, Plain(c.value), |c.value.functions|);
          if !s.Got? || s.rest != [] then Failure(Fault(s))
          else if !ContextBindable(c.value, s.value) then Failure(MalformedModule)
          else Success(info.seen.summary.value, BoundCore(c.value), BoundState(c.value, s.value))
  }
}
