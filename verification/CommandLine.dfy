// What a worker reads off the words it is started with.
module CommandLine {
  import opened Types
  import opened CacheKey
  import EndToEnd

  // Flags that stand alone take no value.
  predicate Valued(flag: Flag) { !flag.ExportResults? && !flag.SkipPatchTests? && !flag.ArchiveS3? }

  // The word after a flag; the last time it is given counts.
  function ValueOf(words: seq<Word>, flag: Flag): Option<Word> {
    if |words| < 2 then None
    else
      var later := ValueOf(words[1..], flag);
      if later.Some? then later else if words[0] == Flag(flag) then Some(words[1]) else None
  }

  lemma {:induction false} NoValue(words: seq<Word>, flag: Flag)
    requires forall j :: 0 <= j < |words| ==> words[j] != Flag(flag)
    ensures ValueOf(words, flag) == None
    decreases |words|
  {
    if |words| >= 2 {
      NoValue(words[1..], flag);
    }
  }

  lemma {:induction false} ValueAt(words: seq<Word>, flag: Flag, i: nat)
    requires i + 1 < |words| && words[i] == Flag(flag) && forall j :: i < j < |words| ==> words[j] != Flag(flag)
    ensures ValueOf(words, flag) == Some(words[i + 1])
    decreases i
  {
    if i == 0 {
      NoValue(words[1..], flag);
    } else {
      ValueAt(words[1..], flag, i - 1);
    }
  }

  lemma {:induction false} ValueInParts(a: seq<Word>, b: seq<Word>, flag: Flag)
    requires a == [] || a[|a| - 1] != Flag(flag)
    ensures ValueOf(a + b, flag) == if ValueOf(b, flag).Some? then ValueOf(b, flag) else ValueOf(a, flag)
    decreases |a|
  {
    if a == [] {
      assert a + b == b;
    } else {
      ValueInParts(a[1..], b, flag);
      assert (a + b)[1..] == a[1..] + b;
      if |a| == 1 {
        assert a[1..] == [];
      }
    }
  }

  // Pairs of a flag and its value, each flag at most once: every flag gets its own value.
  lemma PairGives(flag: Flag, value: Word, asked: Flag)
    requires !value.Flag?
    ensures ValueOf([Flag(flag), value], asked) == if asked == flag then Some(value) else None
  {
    var words := [Flag(flag), value];
    assert words[1..] == [value];
  }

  lemma PairsGive(a: seq<Word>, flag: Flag, value: Word, asked: Flag)
    requires !value.Flag? && (a == [] || !a[|a| - 1].Flag?)
    ensures ValueOf(a + [Flag(flag), value], asked) == if asked == flag then Some(value) else ValueOf(a, asked)
  {
    PairGives(flag, value, asked);
    ValueInParts(a, [Flag(flag), value], asked);
  }

  /* ------------------------------------------------------- identity */

  function IdOf(value: Option<Word>): Option<EntityId> {
    match value
    case None => None
    case Some(JobId(id)) => Some(Id(id))
    case Some(_) => Some(Malformed)
  }

  // The identifier flags of the command line.
  function FlagsGiven(words: seq<Word>): EndToEnd.Flags {
    EndToEnd.Flags(IdOf(ValueOf(words, JobIdFlag)), IdOf(ValueOf(words, PovIdFlag)), IdOf(ValueOf(words, PatchIdFlag)))
  }

  // A later kind of identifier overrides the others.
  lemma IdentityMeans(flags: EndToEnd.Flags)
    ensures flags.patchID.Some? ==> EndToEnd.Identity(flags) == (PatchJob, flags.patchID.value)
    ensures flags.patchID.None? && flags.povID.Some? ==> EndToEnd.Identity(flags) == (PovJob, flags.povID.value)
    ensures flags.patchID.None? && flags.povID.None? && flags.jobID.Some? ==>
              EndToEnd.Identity(flags) == (GenericJob, flags.jobID.value)
    ensures flags == EndToEnd.Flags(None, None, None) ==> EndToEnd.Identity(flags).0 == Unknown
  {
  }

  /* ------------------------------------------------------- the jobrunner's words */

  // The value a worker is to find under a flag.
  function ValueFor(w: Work, flag: Flag): Option<Word>
    requires w.Valid()
  {
    match flag
    case HeadRepoUrl => Some(LinkTo(w.head))
    case OssFuzzUrl => Some(LinkTo(w.tooling))
    case Focus => Some(Text(w.focus))
    case ProjectName => Some(Text(w.project))
    case Architecture => Some(Text(w.architecture))
    case BaseRepoUrl => if w.passesBase then Some(LinkTo(w.base.value)) else None
    case TriggerUrl => if w.testcase.Some? then Some(BlobLink(w.testcase.value.blob)) else None
    case Sanitizer => if w.testcase.Some? then Some(Text(w.testcase.value.sanitizer)) else None
    case HarnessName => if w.testcase.Some? then Some(Text(w.testcase.value.fuzzer)) else None
    case Engine => if w.testcase.Some? then Some(Text(w.testcase.value.engine)) else None
    case PatchUrl => if w.patch.Some? then Some(BlobLink(w.patch.value)) else None
    case AllowedLanguages => if w.patch.Some? then Some(Text("java")) else None
    case _ => None
  }

  function CommonPairs(w: Work): seq<Word> {
    [Flag(HeadRepoUrl), LinkTo(w.head), Flag(OssFuzzUrl), LinkTo(w.tooling), Flag(Focus), Text(w.focus),
     Flag(ProjectName), Text(w.project), Flag(Architecture), Text(w.architecture)]
  }

  lemma PairsInCommon(w: Work, flag: Flag)
    requires w.Valid()
    ensures ValueOf(CommonPairs(w), flag)
         == if flag in {HeadRepoUrl, OssFuzzUrl, Focus, ProjectName, Architecture} then ValueFor(w, flag) else None
  {
    var w1 := [Flag(HeadRepoUrl), LinkTo(w.head)];
    var w2 := w1 + [Flag(OssFuzzUrl), LinkTo(w.tooling)];
    var w3 := w2 + [Flag(Focus), Text(w.focus)];
    var w4 := w3 + [Flag(ProjectName), Text(w.project)];
    PairGives(HeadRepoUrl, LinkTo(w.head), flag);
    PairsGive(w1, OssFuzzUrl, LinkTo(w.tooling), flag);
    PairsGive(w2, Focus, Text(w.focus), flag);
    PairsGive(w3, ProjectName, Text(w.project), flag);
    PairsGive(w4, Architecture, Text(w.architecture), flag);
    assert CommonPairs(w) == w4 + [Flag(Architecture), Text(w.architecture)];
  }

  lemma CommonGives(w: Work, flag: Flag)
    requires w.Valid() && Valued(flag)
    ensures ValueOf(CommonPairs(w) + [Flag(ExportResults)], flag)
         == if flag in {HeadRepoUrl, OssFuzzUrl, Focus, ProjectName, Architecture} then ValueFor(w, flag) else None
  {
    PairsInCommon(w, flag);
    ValueInParts(CommonPairs(w), [Flag(ExportResults)], flag);
  }

  lemma TestcaseGives(w: Work, flag: Flag)
    requires w.Valid()
    ensures ValueOf(TestcaseArguments(w.testcase), flag)
         == if flag in {TriggerUrl, Sanitizer, HarnessName, Engine} then ValueFor(w, flag) else None
  {
    if w.testcase.Some? {
      var t := w.testcase.value;
      var w1 := [Flag(TriggerUrl), BlobLink(t.blob)];
      var w2 := w1 + [Flag(Sanitizer), Text(t.sanitizer)];
      var w3 := w2 + [Flag(HarnessName), Text(t.fuzzer)];
      PairGives(TriggerUrl, BlobLink(t.blob), flag);
      PairsGive(w1, Sanitizer, Text(t.sanitizer), flag);
      PairsGive(w2, HarnessName, Text(t.fuzzer), flag);
      PairsGive(w3, Engine, Text(t.engine), flag);
      assert TestcaseArguments(w.testcase) == w3 + [Flag(Engine), Text(t.engine)];
    }
  }

  lemma PatchGives(w: Work, flag: Flag)
    requires w.Valid()
    ensures ValueOf(PatchArguments(w.patch), flag)
         == if flag in {PatchUrl, AllowedLanguages} then ValueFor(w, flag) else None
  {
    if w.patch.Some? {
      var w1 := [Flag(AllowedLanguages), Text("c")];
      var w2 := w1 + [Flag(AllowedLanguages), Text("java")];
      PairGives(AllowedLanguages, Text("c"), flag);
      PairsGive(w1, AllowedLanguages, Text("java"), flag);
      PairsGive(w2, PatchUrl, BlobLink(w.patch.value), flag);
      assert PatchArguments(w.patch) == w2 + [Flag(PatchUrl), BlobLink(w.patch.value)];
    }
  }

  lemma FrontGives(w: Work, flag: Flag)
    requires w.Valid() && Valued(flag)
    ensures ValueOf(FrontArguments(w), flag)
         == if flag in {HeadRepoUrl, OssFuzzUrl, Focus, ProjectName, Architecture, BaseRepoUrl} then ValueFor(w, flag)
            else None
  {
    var common := CommonPairs(w) + [Flag(ExportResults)];
    assert FrontArguments(w) == common + SkipArguments(w.skipPatchTests) + BaseArguments(w);
    CommonGives(w, flag);
    ValueInParts(common, SkipArguments(w.skipPatchTests), flag);
    ValueInParts(common + SkipArguments(w.skipPatchTests), BaseArguments(w), flag);
    if w.passesBase {
      PairGives(BaseRepoUrl, LinkTo(w.base.value), flag);
    }
  }

  lemma LastWord(w: Work, flag: Flag)
    requires w.Valid() && Valued(flag)
    ensures |FrontArguments(w)| > 0 && FrontArguments(w)[|FrontArguments(w)| - 1] != Flag(flag)
    ensures var words := FrontArguments(w) + TestcaseArguments(w.testcase);
            |words| > 0 && words[|words| - 1] != Flag(flag)
  {
  }

  // Under every flag a worker finds what the work says, and nothing under the others.
  lemma ArgumentsGive(w: Work, flag: Flag)
    requires w.Valid() && Valued(flag)
    ensures ValueOf(Arguments(w), flag) == ValueFor(w, flag)
  {
    FrontGives(w, flag);
    TestcaseGives(w, flag);
    PatchGives(w, flag);
    LastWord(w, flag);
    ValueInParts(FrontArguments(w), TestcaseArguments(w.testcase), flag);
    ValueInParts(FrontArguments(w) + TestcaseArguments(w.testcase), PatchArguments(w.patch), flag);
  }

  // Results are always exported, and the tests skipped iff the work says so.
  lemma SwitchesGiven(w: Work)
    requires w.Valid()
    ensures Flag(ExportResults) in Arguments(w) && (Flag(SkipPatchTests) in Arguments(w) <==> w.skipPatchTests)
    ensures Arguments(w)[|Arguments(w)| - 1] != Flag(JobIdFlag)
  {
    var front := FrontArguments(w);
    assert front[10] == Flag(ExportResults) && Arguments(w)[10] == front[10];
    if w.skipPatchTests {
      assert front[11] == Flag(SkipPatchTests) && Arguments(w)[11] == front[11];
    }
  }
}
