/**
  What an artifact is for: restoring what was written gives the same summary and
  metadata, the measured size is the written one, and the readers agree.
 */
module ArtifactTheorems {
  import opened Common
  import opened Bytes
  import opened ArtifactWords
  import opened ArtifactRecords
  import opened ArtifactLists
  import opened DefinedTypes
  import opened ArtifactCore
  import opened ArtifactState
  import opened ArtifactBinding
  import opened ArtifactFile

  // ---------------------------------------------------------------- written artifacts

  /** What the validating reader finds in a written module. */
  predicate Sound(m: Mod) {
    && CoreFine(m.core) && StateFine(m.state)
    && CoreConsistent(m.summary, CountsOf(m.core))
    && StateConsistent(m.summary, StateCountsOf(m.state), Some(CountsOf(m.core)))
  }

  /** What the restoring reader makes of a module: the core metadata, the state
      metadata and the binding of the value types decide in this order. */
  function RestoreFate(m: Mod): Fate {
    Then(CoreFate(m.core), Then(StateFate(m.state, Plain(m.core), |m.core.functions|),
      if ContextBindable(m.core, m.state) then Kept else Bad))
  }

  /** What a caller can look at: every record is one that the restoring reader builds
      and the context has room for, the types can be finalized, and every value type
      can be bound. */
  predicate Buildable(m: Mod) {
    && AllTypesGood(m.core.types) && Finalize(m.core.types).Made? && ListsGood(m.core)
    && (forall x :: x in m.state.globals ==> GlobalGood(x) && GlobalRoom(x))
    && (forall x :: x in m.state.tables ==> TableGood(x) && TableRoom(x))
    && (forall x :: x in m.state.tags ==> TagFor(x, Plain(m.core)))
    && AllDataGood(m.state.data) && AllElementsGood(m.state.elements)
    && (m.state.refs == [] || |m.state.refs| == |m.core.functions|) && ContextBindable(m.core, m.state)
  }

  /** Nothing stands in the way exactly if the module is buildable. */
  lemma {:induction false} BuildableMeans(m: Mod)
    ensures RestoreFate(m).Kept? <==> Buildable(m)
  {
    hide AllTypesGood, Finalize, ListsGood, AllDataGood, AllElementsGood, ContextBindable, GlobalGood, GlobalRoom;
    hide TableGood, TableRoom, Plain, TagFor, FateOf;
    var plain := Plain(m.core);
    FateKept(m.state.globals, GlobalGood, GlobalRoom);
    FateKept(m.state.tables, TableGood, TableRoom);
    FateKept(m.state.tags, AnyTag, TagRoom(plain));
  }

  /** The core metadata that is restored: types finalized, locals bound. */
  function RestoredCore(m: Mod): Core {
    BoundCore(Final(m.core))
  }

  function RestoredState(m: Mod): State {
    BoundState(Final(m.core), m.state)
  }

  /** The sections of a written artifact from the `k`-th on. */
  ghost function Remaining(m: Mod, hash: Hash, k: nat): seq<Byte>
    decreases 4 - k
  {
    if k >= 4 then []
    else
      var part := match k
        case 0 => PutSection(SUMMARY_SECTION, PutSummary(m.summary))
        case 1 => PutSection(CORE_SECTION, PutCore(m.core))
        case 2 => PutSection(STATE_SECTION, PutState(m.state))
        case _ => PutSection(SEAL_SECTION, hash(Prefix(m, hash)));
      part + Remaining(m, hash, k + 1)
  }

  lemma {:induction false} RemainingParts(m: Mod, hash: Hash)
    ensures Artifact(m, hash) == PutHeader(HeaderOf(m, hash)) + Remaining(m, hash, 0)
    ensures Remaining(m, hash, 0) == PutSection(SUMMARY_SECTION, PutSummary(m.summary)) + Remaining(m, hash, 1)
    ensures Remaining(m, hash, 1) == PutSection(CORE_SECTION, PutCore(m.core)) + Remaining(m, hash, 2)
    ensures Remaining(m, hash, 2) == PutSection(STATE_SECTION, PutState(m.state)) + Remaining(m, hash, 3)
    ensures Remaining(m, hash, 3) == PutSection(SEAL_SECTION, hash(Prefix(m, hash))) + []
    ensures |Remaining(m, hash, 3)| <= |Artifact(m, hash)|
    ensures Artifact(m, hash)[..|Artifact(m, hash)| - |Remaining(m, hash, 3)|] == Prefix(m, hash)
  {
    hide PutSection, PutSummary, PutCore, PutState, PutHeader, HeaderOf;
    var h, a, b, c, d := PutHeader(HeaderOf(m, hash)), PutSection(SUMMARY_SECTION, PutSummary(m.summary)),
      PutSection(CORE_SECTION, PutCore(m.core)),
      PutSection(STATE_SECTION, PutState(m.state)), PutSection(SEAL_SECTION, hash(Prefix(m, hash)));
    assert Remaining(m, hash, 4) == [] && Remaining(m, hash, 3) == d + [] == d;
    Associate(b, c, d);
    Associate(a, b + c, d);
    Associate(h, a + (b + c), d);
    assert Artifact(m, hash) == h + (a + (b + (c + d)));
    assert Artifact(m, hash) == Prefix(m, hash) + d;
  }

  lemma {:induction false} SectionsOf(m: Mod, hash: Hash)
    requires Writable(m) && Digest(hash)
    ensures TakeSection(Remaining(m, hash, 0)) == Got((SUMMARY_SECTION, PutSummary(m.summary)), Remaining(m, hash, 1))
    ensures TakeSection(Remaining(m, hash, 1)) == Got((CORE_SECTION, PutCore(m.core)), Remaining(m, hash, 2))
    ensures TakeSection(Remaining(m, hash, 2)) == Got((STATE_SECTION, PutState(m.state)), Remaining(m, hash, 3))
    ensures TakeSection(Remaining(m, hash, 3)) == Got((SEAL_SECTION, hash(Prefix(m, hash))), [])
  {
    hide TakeSection, PutSection, PutSummary, PutCore, PutState, Remaining, Prefix, CoreFits, StateFits, SummaryFits;
    hide Artifact;
    RemainingParts(m, hash);
    SummarySize(m.summary);
    SectionBack(SUMMARY_SECTION, PutSummary(m.summary), Remaining(m, hash, 1));
    SectionBack(CORE_SECTION, PutCore(m.core), Remaining(m, hash, 2));
    SectionBack(STATE_SECTION, PutState(m.state), Remaining(m, hash, 3));
    SectionBack(SEAL_SECTION, hash(Prefix(m, hash)), []);
  }

  /** The section loop accepts a written artifact exactly if both metadata
      sections pass. */
  lemma {:induction false} SectionsSeen(m: Mod, hash: Hash)
    requires Writable(m) && Digest(hash)
    ensures var a := Artifact(m, hash); var b := Remaining(m, hash, 0);
            && |b| <= |a|
            && Sections(a, b, 4, Seen(None, None, None, false), COMPLETE + SEALED, |m.source|, hash) ==
               if CoreFine(m.core) && StateFine(m.state) then
                 Some(Seen(Some(m.summary), Some(CountsOf(m.core)), Some(StateCountsOf(m.state)), true)) else None
  {
    hide TakeSection, PutSummary, PutCore, PutState, Remaining, Prefix, CoreFits, StateFits, SummaryFits, Artifact;
    hide ReadSummary, ReadCore, ReadState, CoreFine, StateFine, CountsOf, StateCountsOf;
    RemainingParts(m, hash);
    SectionsOf(m, hash);
    SummaryBack(m.summary, []);
    SummarySize(m.summary);
    CorePassed(m.core, |m.source|, []);
    StatePassed(m.state, |m.source|, []);
    assert PutSummary(m.summary) + [] == PutSummary(m.summary) && PutCore(m.core) + [] == PutCore(m.core)
        && PutState(m.state) + [] == PutState(m.state);
    var a, source, flags := Artifact(m, hash), |m.source|, COMPLETE + SEALED;
    var s0 := Seen(None, None, None, false);
    var s1 := s0.(summary := Some(m.summary));
    assert Look(s0, SUMMARY_SECTION, PutSummary(m.summary), a[..|a| - |Remaining(m, hash, 0)|], false, flags, source,
        hash) == Some(s1);
    if CoreFine(m.core) {
      var s2 := s1.(core := Some(CountsOf(m.core)));
      if StateFine(m.state) {
        var s3 := s2.(state := Some(StateCountsOf(m.state)));
        assert Sections(a, Remaining(m, hash, 3), 1, s3, flags, source, hash) == Some(s3.(seal := true));
        assert Sections(a, Remaining(m, hash, 2), 2, s2, flags, source, hash) == Some(s3.(seal := true));
      } else {
        assert Sections(a, Remaining(m, hash, 2), 2, s2, flags, source, hash) == None;
      }
    }
  }

  lemma {:induction false} HeaderWritable(m: Mod, hash: Hash)
    requires |m.source| < MAX64 && Digest(hash)
    ensures HeaderFits(HeaderOf(m, hash))
  {
  }

  /** A written artifact passes inspection exactly if its metadata is sound. */
  lemma {:induction false} InspectWritten(m: Mod, hash: Hash)
    requires Writable(m) && Digest(hash)
    ensures Inspect(Artifact(m, hash), m.source, hash) ==
            if Sound(m) then
              Accepted(HeaderOf(m, hash),
              Seen(Some(m.summary), Some(CountsOf(m.core)), Some(StateCountsOf(m.state)), true))
              else Rejected(MalformedModule)
  {
    hide Remaining, Prefix, CoreFits, StateFits, SummaryFits, Artifact, CoreFine, StateFine, CountsOf, StateCountsOf;
    hide ReadHeader, PutHeader, CoreConsistent, StateConsistent, Sections, HeaderFits, PutCore, PutState;
    HeaderWritable(m, hash);
    RemainingParts(m, hash);
    HeaderBack(HeaderOf(m, hash), Remaining(m, hash, 0));
    SectionsSeen(m, hash);
  }

  /** Finalizing changes neither the kinds of the types nor which have results. */
  lemma {:induction false} FinalFacts(c: Core, s: State)
    ensures Plain(Final(c)) == Plain(c) && Final(c).functions == c.functions
    ensures ContextBindable(Final(c), s) == ContextBindable(c, s)
  {
    ReboundKinds(c.types);
    hide Kinds, Bindable, AllBindable, AnyComposite;
    assert Plain(Final(c)) == Plain(c);
  }

  /** Restoring what was written, against the same source, gives the summary and the
      metadata with the types finalized and every value type bound; if that fails,
      the first thing that stands in the way decides the status. */
  lemma {:induction false} RestoreWritten(m: Mod, hash: Hash)
    requires Writable(m) && Digest(hash)
    ensures Restore(Artifact(m, hash), m.source, hash) ==
            if !Sound(m) then Failure(MalformedModule)
            else match RestoreFate(m)
              case Kept => Success(m.summary, RestoredCore(m), RestoredState(m))
              case Bad => Failure(MalformedModule)
              case Full => Failure(OutOfMemory)
  {
    hide Remaining, Prefix, CoreFits, StateFits, SummaryFits, Artifact, CountsOf, StateCountsOf, PutHeader;
    hide CoreConsistent, StateConsistent, HeaderFits, PutCore, PutState, Inspect, Sound;
    hide TakeSection, PutSummary, RestoreCore, RestoreState, ReadCore, ReadState, CoreFate, StateFate, CoreFine;
    hide StateFine, ContextBindable, BoundCore, BoundState, Final, Plain;
    FinalFacts(m.core, m.state);
    InspectWritten(m, hash);
    if Sound(m) {
      MeasuredSize(m, hash);
      RemainingParts(m, hash);
      SectionsOf(m, hash);
      var a, b := Artifact(m, hash), Remaining(m, hash, 0);
      assert a[HEADER_SIZE..] == b;
      FindBoth(m, hash);
      CoreRoundTrip(m.core, |m.source|, []);
      StateRoundTrip(m.state, |m.source|, Plain(m.core), |m.core.functions|, []);
      assert PutCore(m.core) + [] == PutCore(m.core) && PutState(m.state) + [] == PutState(m.state);
    }
  }

  /** What was written comes back unchanged exactly if it is sound and buildable and
      every carrier in it agrees with the type that is named. */
  lemma {:induction false} RestoreExact(m: Mod, hash: Hash)
    requires Writable(m) && Digest(hash)
    ensures Restore(Artifact(m, hash), m.source, hash) == Success(m.summary, m.core, m.state) <==>
            Sound(m) && Buildable(m) && ContextSettled(m.core, m.state)
  {
    hide Writable, Digest, Restore, Artifact, Sound, RestoreFate, ContextSettled, BoundCore, BoundState, Final;
    hide Buildable;
    BuildableMeans(m);
    RestoreWritten(m, hash);
    SettledMeans(m.core, m.state);
  }

  lemma {:induction false} FindBoth(m: Mod, hash: Hash)
    requires Writable(m) && Digest(hash)
    ensures Find(Remaining(m, hash, 0), 4, CORE_SECTION) == Some(PutCore(m.core))
    ensures Find(Remaining(m, hash, 0), 4, STATE_SECTION) == Some(PutState(m.state))
  {
    hide TakeSection, Remaining, Find, PutCore, PutState, PutSummary, Prefix, Writable, Digest;
    SectionsOf(m, hash);
    FindStep(Remaining(m, hash, 0), 4, CORE_SECTION);
    FindStep(Remaining(m, hash, 0), 4, STATE_SECTION);
    FindStep(Remaining(m, hash, 1), 3, CORE_SECTION);
    FindStep(Remaining(m, hash, 1), 3, STATE_SECTION);
    FindStep(Remaining(m, hash, 2), 2, STATE_SECTION);
  }

  lemma {:induction false} FindStep(b: seq<Byte>, n: nat, kind: nat)
    requires n > 0 && TakeSection(b).Got?
    ensures var s := TakeSection(b);
              Find(b, n, kind) == if s.value.0 == kind then Some(s.value.1) else Find(s.rest, n - 1, kind)
  {
  }

  // ---------------------------------------------------------------- any bytes

  /** A section is what lies in front of the rest. */
  lemma {:induction false} TakenFrom(b: seq<Byte>)
    requires TakeSection(b).Got?
    ensures var s := TakeSection(b);
              |b| == 8 + |s.value.1| + |s.rest| && b[8..8 + |s.value.1|] == s.value.1 && b[8 + |s.value.1|..] == s.rest
  {
    hide FromLe;
    var f := GetWords(b, [4, 4]);
    assert [4, 4][1..] == [4] && [4][1..] == [];
    assert GetWords(b[4..], [4]).Got? && GetWords(b[4..][4..], []).rest == b[4..][4..] == b[8..];
    assert f.rest == b[8..];
  }

  /** The loop leaves a seal only on the last section, over all bytes before it. */
  lemma {:induction false} SealedLast(a: seq<Byte>, b: seq<Byte>, n: nat, seen: Seen, flags: nat, source: nat,
      hash: Hash)
    requires |b| <= |a| && a[|a| - |b|..] == b && !seen.seal && Digest(hash)
    ensures var r := Sections(a, b, n, seen, flags, source, hash);
            r.Some? && r.value.seal ==>
              |a| >= 8 + DIGEST_SIZE && a[|a| - DIGEST_SIZE..] == hash(a[..|a| - 8 - DIGEST_SIZE])
    decreases n
  {
    hide ReadSummary, ReadCore, ReadState, TakeSection;
    if n > 0 && TakeSection(b).Got? {
      TakenFrom(b);
      var s := TakeSection(b);
      var next := Look(seen, s.value.0, s.value.1, a[..|a| - |b|], n == 1, flags, source, hash);
      assert a[|a| - |s.rest|..] == s.rest;
      if next.Some? {
        if next.value.seal {
          assert n == 1 && |s.value.1| == DIGEST_SIZE && hash(a[..|a| - |b|]) == s.value.1;
          assert s.rest == [] ==> a[|a| - DIGEST_SIZE..] == s.value.1;
        } else {
          SealedLast(a, s.rest, n - 1, next.value, flags, source, hash);
        }
      }
    }
  }

  /** Whatever bytes inspection accepts belong to this very source, and if they
      claim a seal it is the digest of everything in front of it. */
  lemma {:induction false} AcceptedIsSealed(a: seq<Byte>, source: seq<Byte>, hash: Hash)
    requires Digest(hash) && Inspect(a, source, hash).Accepted?
    ensures var h := Inspect(a, source, hash).header;
            && h.sourceSize == |source| && h.digest == hash(source) && |a| >= HEADER_SIZE && a[32..64] == hash(source)
            && (h.flags / 2 % 2 == 1 ==>
                 |a| >= 8 + DIGEST_SIZE && a[|a| - DIGEST_SIZE..] == hash(a[..|a| - 8 - DIGEST_SIZE]))
  {
    var h := ReadHeader(a);
    HeaderFrom(a);
    hide ReadHeader, Sections;
    SealedLast(a, h.rest, h.value.sections, Seen(None, None, None, false), h.value.flags, |source|, hash);
  }

  lemma {:induction false} HeaderFrom(a: seq<Byte>)
    requires ReadHeader(a).Got?
    ensures ReadHeader(a).value.digest == a[32..64] && ReadHeader(a).rest == a[HEADER_SIZE..]
  {
    hide GetWords, Total;
    GetRest(a[4..], HEADER_WORDS);
    Totals(HEADER_WORDS);
    var b1 := GetWords(a[4..], HEADER_WORDS).rest;
    assert b1 == a[32..];
    GetRest(b1[DIGEST_SIZE..], [4, 4]);
    Totals([4, 4]);
    assert b1[DIGEST_SIZE..] == a[64..];
  }

  /** On any artifact that is restored, the restoring reader found in each section
      exactly as many records as the inspection, in exactly the same bytes. */
  lemma {:induction false} ReadersAgree(a: seq<Byte>, source: seq<Byte>, hash: Hash)
    requires Restore(a, source, hash).Success?
    ensures var i, r := Inspect(a, source, hash), Restore(a, source, hash);
            i.Accepted? && i.seen.summary == Some(r.summary) && i.seen.core == Some(CountsOf(r.core))
              && i.seen.state == Some(StateCountsOf(r.state))
  {
    hide Inspect, RestoreCore, RestoreState, ReadCore, ReadState, Sections, Find, ContextBindable, BoundCore;
    hide BoundState, CountsOf, StateCountsOf, Plain;
    var i := Inspect(a, source, hash);
    InspectSeen(a, source, hash);
    var n, b := i.header.sections, a[HEADER_SIZE..];
    SeenFound(a, b, n, Seen(None, None, None, false), i.header.flags, |source|, hash);
    CoreReadersAgree(Find(b, n, CORE_SECTION).value, |source|);
    var c := RestoreCore(Find(b, n, CORE_SECTION).value, |source|).value;
    StateReadersAgree(Find(b, n, STATE_SECTION).value, |source|, Plain(c), |c.functions|);
    BoundCounts(c, RestoreState(Find(b, n, STATE_SECTION).value, |source|, Plain(c), |c.functions|).value);
  }

  /** What inspection saw is what the section loop found behind the header. */
  lemma {:induction false} InspectSeen(a: seq<Byte>, source: seq<Byte>, hash: Hash)
    requires Inspect(a, source, hash).Accepted?
    ensures var i := Inspect(a, source, hash);
            && |a| >= HEADER_SIZE && i.seen.summary.Some?
            && Sections(a, a[HEADER_SIZE..], i.header.sections, Seen(None, None, None, false), i.header.flags,
                 |source|, hash) == Some(i.seen)
  {
    HeaderFrom(a);
    hide ReadHeader, Sections, CoreConsistent, StateConsistent;
  }

  lemma {:induction false} BoundCounts(c: Core, s: State)
    ensures CountsOf(BoundCore(c)) == CountsOf(c) && StateCountsOf(BoundState(c, s)) == StateCountsOf(s)
  {
  }

  /** The inspection's findings come from the sections that `Find` finds. */
  lemma {:induction false} SeenFound(a: seq<Byte>, b: seq<Byte>, n: nat, seen: Seen, flags: nat, source: nat,
      hash: Hash)
    requires |b| <= |a| && Sections(a, b, n, seen, flags, source, hash).Some?
    ensures var r := Sections(a, b, n, seen, flags, source, hash).value;
            && (if seen.core.Some? then r.core == seen.core
                else r.core.Some? ==>
                  Find(b, n, CORE_SECTION).Some?
                  && (var c := ReadCore(Find(b, n, CORE_SECTION).value, source); c.Got? && r.core == Some(c.value)))
            && (if seen.state.Some? then r.state == seen.state
                else r.state.Some? ==>
                  Find(b, n, STATE_SECTION).Some?
                  && (var s := ReadState(Find(b, n, STATE_SECTION).value, source); s.Got? && r.state == Some(s.value)))
    decreases n
  {
    hide ReadSummary, ReadCore, ReadState, TakeSection;
    if n > 0 {
      var s := TakeSection(b);
      var next := Look(seen, s.value.0, s.value.1, a[..|a| - |b|], n == 1, flags, source, hash);
      SeenFound(a, s.rest, n - 1, next.value, flags, source, hash);
      FindStep(b, n, CORE_SECTION);
      FindStep(b, n, STATE_SECTION);
      hide Look, Find, Sections;
      LookEffect(seen, s.value.0, s.value.1, a[..|a| - |b|], n == 1, flags, source, hash);
    }
  }

  lemma {:induction false} LookEffect(seen: Seen, kind: nat, body: seq<Byte>, before: seq<Byte>, last: bool,
      flags: nat, source: nat, hash: Hash)
    requires Look(seen, kind, body, before, last, flags, source, hash).Some?
    ensures var next := Look(seen, kind, body, before, last, flags, source, hash).value;
            && (kind == CORE_SECTION ==>
                 seen.core.None? && ReadCore(body, source).Got? && next.core == Some(ReadCore(body, source).value)
                 && next.state == seen.state)
            && (kind == STATE_SECTION ==>
                 seen.state.None? && ReadState(body, source).Got? && next.state == Some(ReadState(body, source).value)
                 && next.core == seen.core)
            && (kind != CORE_SECTION && kind != STATE_SECTION ==> next.core == seen.core && next.state == seen.state)
  {
    hide ReadSummary, ReadCore, ReadState;
  }
}
