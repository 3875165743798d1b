// The cache key of a jobrunner request and the arguments of the worker it would start.
module CacheKey {
  import opened Types

  // Where a source comes from: a URL given in the request (or nothing, as an empty URL), or a task's stored archive.
  datatype Origin = Link(url: string) | Archive(url: string, sha256: string)

  datatype Testcase = Testcase(blob: string, sanitizer: string, fuzzer: string, engine: string)

  // A request after its task was looked up and its data stored. `passesBase`: the worker is given the base source.
  datatype Work = Work(
    head: Origin, tooling: Origin, base: Option<Origin>, passesBase: bool, focus: string, project: string,
    architecture: string, skipPatchTests: bool, testcase: Option<Testcase>, patch: Option<string>)
  {
    predicate Valid() { passesBase ==> base.Some? }
  }

  // What a request without a task asks for when it gives URLs for head and tooling and no base.
  predicate Askable(w: Work) { w.head.Link? && w.tooling.Link? && w.base.None? && !w.passesBase }

  // What goes into the key for a source: the given URL, or the hash of the archive.
  function Component(o: Origin): string {
    if o.Link? then o.url else o.sha256
  }

  const NEWLINE: string := "\n"
  const TESTCASE: string := "testcase"
  const PATCH: string := "patch"

  function FormatBool(b: bool): string { if b then "true" else "false" }

  function BaseParts(base: Option<Origin>): seq<string> {
    if base.None? then [] else [Component(base.value)]
  }

  // The architecture is part of the key only here.
  function TestcaseParts(testcase: Option<Testcase>, architecture: string): seq<string> {
    if testcase.None? then []
    else [TESTCASE, testcase.value.blob, architecture, testcase.value.sanitizer, testcase.value.fuzzer,
          testcase.value.engine]
  }

  function PatchParts(patch: Option<string>): seq<string> {
    if patch.None? then [] else [PATCH, patch.value]
  }

  function FrontParts(serverKey: string, requestKey: string, w: Work): seq<string> {
    [serverKey, requestKey, Component(w.head), Component(w.tooling)] + BaseParts(w.base)
    + [w.focus, w.project, FormatBool(w.skipPatchTests)]
  }

  // The list that is joined and hashed.
  function KeyParts(serverKey: string, requestKey: string, w: Work): seq<string> {
    FrontParts(serverKey, requestKey, w) + TestcaseParts(w.testcase, w.architecture) + PatchParts(w.patch)
  }

  function Join(parts: seq<string>): string {
    if parts == [] then ""
    else if |parts| == 1 then parts[0]
    else parts[0] + NEWLINE + Join(parts[1..])
  }

  /* ----------------------------------------------- what the joined key determines */

  predicate OneLine(s: string) { forall i :: 0 <= i < |s| ==> s[i] != '\n' }
  predicate OneLineEach(parts: seq<string>) { forall i :: 0 <= i < |parts| ==> OneLine(parts[i]) }

  lemma NewlineIsPast(s: string, prefix: string, k: nat)
    requires |prefix| <= |s| && s[..|prefix|] == prefix && OneLine(prefix) && k < |s| && s[k] == '\n'
    ensures |prefix| <= k
  {
    assert forall i :: 0 <= i < |prefix| ==> prefix[i] == s[i];
  }

  lemma SplitAtNewline(a: string, rest: string, b: string, rest': string)
    requires OneLine(a) && OneLine(b) && a + NEWLINE + rest == b + NEWLINE + rest'
    ensures a == b && rest == rest'
  {
    var s := a + NEWLINE + rest;
    assert s[|a|] == '\n' && s[|b|] == '\n';
    assert a == s[..|a|] && b == s[..|b|];
    NewlineIsPast(s, a, |b|);
    NewlineIsPast(s, b, |a|);
    assert rest == s[|a| + 1..] && rest' == s[|b| + 1..];
  }

  lemma JoinOfMany(parts: seq<string>)
    requires |parts| > 1
    ensures !OneLine(Join(parts))
  {
    assert Join(parts)[|parts[0]|] == '\n';
  }

  // The joined text determines the list, if no component has a newline in it.
  lemma {:induction false} JoinIsInjective(a: seq<string>, b: seq<string>)
    requires a != [] && b != [] && OneLineEach(a) && OneLineEach(b) && Join(a) == Join(b)
    ensures a == b
    decreases |a|
  {
    if |a| > 1 && |b| > 1 {
      SplitAtNewline(a[0], Join(a[1..]), b[0], Join(b[1..]));
      JoinIsInjective(a[1..], b[1..]);
      assert a == [a[0]] + a[1..] && b == [b[0]] + b[1..];
    } else if |a| > 1 {
      JoinOfMany(a);
    } else if |b| > 1 {
      JoinOfMany(b);
    }
  }

  // The eight shapes have eight lengths.
  lemma ShapeFromLength(serverKey: string, requestKey: string, a: Work,
                        serverKey': string, requestKey': string, b: Work)
    requires |KeyParts(serverKey, requestKey, a)| == |KeyParts(serverKey', requestKey', b)|
    ensures a.base.Some? == b.base.Some? && a.testcase.Some? == b.testcase.Some? && a.patch.Some? == b.patch.Some?
  {
    assert |KeyParts(serverKey, requestKey, a)|
        == 7 + Bit(a.base.Some?) + 6 * Bit(a.testcase.Some?) + 2 * Bit(a.patch.Some?);
    assert |KeyParts(serverKey', requestKey', b)|
        == 7 + Bit(b.base.Some?) + 6 * Bit(b.testcase.Some?) + 2 * Bit(b.patch.Some?);
  }

  // The list, part by part, for requests of every shape.
  lemma KeyReads(serverKey: string, requestKey: string, w: Work)
    ensures var parts, n := KeyParts(serverKey, requestKey, w), 7 + Bit(w.base.Some?);
            && |parts| >= n && parts[1] == requestKey && parts[2] == Component(w.head)
            && parts[3] == Component(w.tooling) && (w.base.Some? ==> parts[4] == Component(w.base.value))
            && parts[n - 3] == w.focus && parts[n - 2] == w.project
            && parts[n - 1] == (if w.skipPatchTests then "true" else "false")
            && (w.testcase.Some? ==>
                  && |parts| >= n + 6 && parts[n] == "testcase" && parts[n + 1] == w.testcase.value.blob
                  && parts[n + 2] == w.architecture && parts[n + 3] == w.testcase.value.sanitizer
                  && parts[n + 4] == w.testcase.value.fuzzer && parts[n + 5] == w.testcase.value.engine)
            && (w.patch.Some? ==> |parts| >= n + 2 && parts[|parts| - 2..] == ["patch", w.patch.value])
  {
  }

  lemma PartAt(serverKey: string, requestKey: string, w: Work)
    ensures var parts, n := KeyParts(serverKey, requestKey, w), 7 + Bit(w.base.Some?);
            && |parts| >= n
            && parts[0] == serverKey && parts[1] == requestKey
            && parts[2] == Component(w.head) && parts[3] == Component(w.tooling)
            && BaseParts(w.base) == parts[4..n - 3]
            && parts[n - 3] == w.focus && parts[n - 2] == w.project && parts[n - 1] == FormatBool(w.skipPatchTests)
            && parts[n..] == TestcaseParts(w.testcase, w.architecture) + PatchParts(w.patch)
  {
  }

  // What two requests with the same list of parts have in common.
  predicate AgreeOnKey(a: Work, b: Work) {
    && Component(a.head) == Component(b.head) && Component(a.tooling) == Component(b.tooling)
    && BaseParts(a.base) == BaseParts(b.base) && a.focus == b.focus && a.project == b.project
    && a.skipPatchTests == b.skipPatchTests && a.testcase == b.testcase && a.patch == b.patch
    && (a.testcase.Some? ==> a.architecture == b.architecture)
  }

  lemma PartsDetermine(serverKey: string, requestKey: string, a: Work, serverKey': string, requestKey': string, b: Work)
    ensures KeyParts(serverKey, requestKey, a) == KeyParts(serverKey', requestKey', b)
            <==> serverKey == serverKey' && requestKey == requestKey' && AgreeOnKey(a, b)
  {
    if KeyParts(serverKey, requestKey, a) == KeyParts(serverKey', requestKey', b) {
      ShapeFromLength(serverKey, requestKey, a, serverKey', requestKey', b);
      PartAt(serverKey, requestKey, a);
      PartAt(serverKey', requestKey', b);
      TailDetermines(a, b);
    }
  }

  lemma TailDetermines(a: Work, b: Work)
    requires a.testcase.Some? == b.testcase.Some? && a.patch.Some? == b.patch.Some?
    requires TestcaseParts(a.testcase, a.architecture) + PatchParts(a.patch)
             == TestcaseParts(b.testcase, b.architecture) + PatchParts(b.patch)
    ensures a.testcase == b.testcase && a.patch == b.patch && (a.testcase.Some? ==> a.architecture == b.architecture)
  {
    var ta, tb := TestcaseParts(a.testcase, a.architecture), TestcaseParts(b.testcase, b.architecture);
    var pa, pb := PatchParts(a.patch), PatchParts(b.patch);
    assert ta == (ta + pa)[..|ta|] && tb == (tb + pb)[..|tb|];
    assert pa == (ta + pa)[|ta|..] && pb == (tb + pb)[|tb|..];
    if a.testcase.Some? {
      assert ta[1] == tb[1] && ta[2] == tb[2] && ta[3] == tb[3] && ta[4] == tb[4] && ta[5] == tb[5];
    }
    if a.patch.Some? {
      assert pa[1] == pb[1];
    }
  }

  /* ----------------------------------------------- the worker's arguments */

  datatype Flag =
    | HeadRepoUrl | OssFuzzUrl | Focus | ProjectName | Architecture | ExportResults | SkipPatchTests | BaseRepoUrl
    | TriggerUrl | Sanitizer | HarnessName | Engine | AllowedLanguages | PatchUrl | JobIdFlag | PovIdFlag | PatchIdFlag
    | ArchiveS3

  // A command line word: a flag, a given text, a presigned link to a stored source or blob, or the job's identifier.
  datatype Word =
    | Flag(flag: Flag) | Text(text: string) | SourceLink(url: string, sha256: string) | BlobLink(blob: string)
    | JobId(id: nat)

  function LinkTo(o: Origin): Word {
    if o.Link? then Text(o.url) else SourceLink(o.url, o.sha256)
  }

  function SkipArguments(skip: bool): seq<Word> { if skip then [Flag(SkipPatchTests)] else [] }

  function BaseArguments(w: Work): seq<Word>
    requires w.Valid()
  {
    if w.passesBase then [Flag(BaseRepoUrl), LinkTo(w.base.value)] else []
  }

  function TestcaseArguments(testcase: Option<Testcase>): seq<Word> {
    if testcase.None? then []
    else [Flag(TriggerUrl), BlobLink(testcase.value.blob), Flag(Sanitizer), Text(testcase.value.sanitizer),
          Flag(HarnessName), Text(testcase.value.fuzzer), Flag(Engine), Text(testcase.value.engine)]
  }

  function PatchArguments(patch: Option<string>): seq<Word> {
    if patch.None? then []
    else [Flag(AllowedLanguages), Text("c"), Flag(AllowedLanguages), Text("java"),
          Flag(PatchUrl), BlobLink(patch.value)]
  }

  function FrontArguments(w: Work): seq<Word>
    requires w.Valid()
  {
    [Flag(HeadRepoUrl), LinkTo(w.head), Flag(OssFuzzUrl), LinkTo(w.tooling), Flag(Focus), Text(w.focus),
     Flag(ProjectName), Text(w.project), Flag(Architecture), Text(w.architecture), Flag(ExportResults)]
    + SkipArguments(w.skipPatchTests) + BaseArguments(w)
  }

  function Arguments(w: Work): seq<Word>
    requires w.Valid()
  {
    FrontArguments(w) + TestcaseArguments(w.testcase) + PatchArguments(w.patch)
  }

  // The same content may be stored under several names; a link to it means the content.
  function Content(o: Origin): Origin {
    if o.Link? then o else Archive("", o.sha256)
  }

  function Contents(w: Work): Work {
    w.(head := Content(w.head), tooling := Content(w.tooling),
       base := if w.base.Some? then Some(Content(w.base.value)) else None)
  }

  // The two workers get the same arguments, up to where a source's content is stored.
  predicate SameArguments(a: Work, b: Work)
    requires a.Valid() && b.Valid()
  {
    Arguments(Contents(a)) == Arguments(Contents(b))
  }

  predicate SameKind(a: Origin, b: Origin) { a.Link? == b.Link? }

  // What the key leaves open: the architecture without a testcase, whether a component is a URL or a hash,
  // and whether the base source is passed on.
  predicate AgreeOffKey(a: Work, b: Work)
    requires a.Valid() && b.Valid()
  {
    && a.architecture == b.architecture && SameKind(a.head, b.head) && SameKind(a.tooling, b.tooling)
    && a.passesBase == b.passesBase && (a.passesBase ==> SameKind(a.base.value, b.base.value))
  }

  lemma ContentDetermined(a: Origin, b: Origin)
    requires Component(a) == Component(b)
    ensures LinkTo(Content(a)) == LinkTo(Content(b)) <==> SameKind(a, b)
  {
  }

  // Argument lists with the same end differ in their beginning or in the base source.
  lemma ArgumentsTell(a: Work, b: Work)
    requires a.Valid() && b.Valid()
    requires a.skipPatchTests == b.skipPatchTests && a.testcase == b.testcase && a.patch == b.patch
    requires Arguments(a) == Arguments(b)
    ensures LinkTo(a.head) == LinkTo(b.head) && LinkTo(a.tooling) == LinkTo(b.tooling)
    ensures a.architecture == b.architecture && BaseArguments(a) == BaseArguments(b)
  {
    var xs, ys := Arguments(a), Arguments(b);
    assert xs[1] == ys[1] && xs[3] == ys[3] && xs[9] == ys[9];
    var n := 11 + |SkipArguments(a.skipPatchTests)|;
    assert xs[n..n + |BaseArguments(a)|] == BaseArguments(a);
    assert ys[n..n + |BaseArguments(b)|] == BaseArguments(b);
  }

  // The words tell everything about requests that pass no base.
  lemma ArgumentsTellAll(a: Work, b: Work)
    requires !a.passesBase && !b.passesBase && Arguments(a) == Arguments(b)
    ensures LinkTo(a.head) == LinkTo(b.head) && LinkTo(a.tooling) == LinkTo(b.tooling)
    ensures a.focus == b.focus && a.project == b.project && a.architecture == b.architecture
    ensures a.skipPatchTests == b.skipPatchTests && a.testcase == b.testcase && a.patch == b.patch
  {
    FrontWordsTell(a, b);
    BlobWordsLast(a);
    BlobWordsLast(b);
    BlobWordsTell(a.testcase, a.patch, b.testcase, b.patch);
  }

  lemma BlobWordsLast(w: Work)
    requires !w.passesBase
    ensures var n := 11 + |SkipArguments(w.skipPatchTests)|;
            n <= |Arguments(w)| && Arguments(w)[n..] == TestcaseArguments(w.testcase) + PatchArguments(w.patch)
  {
  }

  lemma SkipWord(w: Work)
    requires !w.passesBase
    ensures w.skipPatchTests <==> |Arguments(w)| > 11 && Arguments(w)[11] == Flag(SkipPatchTests)
  {
  }

  lemma FrontWordsTell(a: Work, b: Work)
    requires !a.passesBase && !b.passesBase && Arguments(a) == Arguments(b)
    ensures LinkTo(a.head) == LinkTo(b.head) && LinkTo(a.tooling) == LinkTo(b.tooling)
    ensures a.focus == b.focus && a.project == b.project && a.architecture == b.architecture
    ensures a.skipPatchTests == b.skipPatchTests
  {
    var xs, ys := Arguments(a), Arguments(b);
    assert xs[1] == ys[1] && xs[3] == ys[3] && xs[5] == ys[5] && xs[7] == ys[7] && xs[9] == ys[9];
    SkipWord(a);
    SkipWord(b);
  }

  lemma BlobWordsTell(t: Option<Testcase>, p: Option<string>, t': Option<Testcase>, p': Option<string>)
    requires TestcaseArguments(t) + PatchArguments(p) == TestcaseArguments(t') + PatchArguments(p')
    ensures t == t' && p == p'
  {
    var xs, ys := TestcaseArguments(t) + PatchArguments(p), TestcaseArguments(t') + PatchArguments(p');
    assert t.Some? <==> |xs| > 0 && xs[0] == Flag(TriggerUrl);
    assert t'.Some? <==> |ys| > 0 && ys[0] == Flag(TriggerUrl);
    if t.Some? {
      assert xs[1] == ys[1] && xs[3] == ys[3] && xs[5] == ys[5] && xs[7] == ys[7];
    }
    var n := |TestcaseArguments(t)|;
    assert xs[n..] == PatchArguments(p) && ys[n..] == PatchArguments(p');
    if p.Some? {
      assert PatchArguments(p)[5] == PatchArguments(p')[5];
    }
  }

  lemma ArgumentsDetermined(a: Work, b: Work)
    requires a.Valid() && b.Valid() && AgreeOnKey(a, b)
    ensures SameArguments(a, b) <==> AgreeOffKey(a, b)
  {
    var a', b' := Contents(a), Contents(b);
    ContentDetermined(a.head, b.head);
    ContentDetermined(a.tooling, b.tooling);
    SameBaseArguments(a, b);
    if SameArguments(a, b) {
      ArgumentsTell(a', b');
    }
  }

  lemma SameBaseArguments(a: Work, b: Work)
    requires a.Valid() && b.Valid() && BaseParts(a.base) == BaseParts(b.base)
    ensures BaseArguments(Contents(a)) == BaseArguments(Contents(b))
            <==> a.passesBase == b.passesBase && (a.passesBase ==> SameKind(a.base.value, b.base.value))
  {
    var xs, ys := BaseArguments(Contents(a)), BaseArguments(Contents(b));
    if a.passesBase && b.passesBase {
      BasePartsDetermine(a, b);
      ContentDetermined(a.base.value, b.base.value);
      assert xs[1] == LinkTo(Content(a.base.value)) && ys[1] == LinkTo(Content(b.base.value));
    } else if a.passesBase != b.passesBase {
      assert |xs| != |ys|;
    }
  }

  lemma BasePartsDetermine(a: Work, b: Work)
    requires a.base.Some? && b.base.Some? && BaseParts(a.base) == BaseParts(b.base)
    ensures Component(a.base.value) == Component(b.base.value)
  {
    assert BaseParts(a.base)[0] == BaseParts(b.base)[0];
  }

  function Key(digest: string -> string, serverKey: string, requestKey: string, w: Work): string {
    digest(Join(KeyParts(serverKey, requestKey, w)))
  }

  predicate OneLineKey(serverKey: string, requestKey: string, w: Work) {
    OneLineEach(KeyParts(serverKey, requestKey, w))
  }

  // Two requests share a key exactly when all keyed components agree; then their workers get the same
  // arguments exactly when they agree on what is not keyed.
  lemma SameKeyMeaning(digest: string -> string, serverKey: string, requestKey: string, a: Work,
                       serverKey': string, requestKey': string, b: Work)
    requires CollisionFree(digest) && a.Valid() && b.Valid()
    requires OneLineKey(serverKey, requestKey, a) && OneLineKey(serverKey', requestKey', b)
    ensures Key(digest, serverKey, requestKey, a) == Key(digest, serverKey', requestKey', b)
            <==> serverKey == serverKey' && requestKey == requestKey' && AgreeOnKey(a, b)
    ensures Key(digest, serverKey, requestKey, a) == Key(digest, serverKey', requestKey', b) ==>
              (SameArguments(a, b) <==> AgreeOffKey(a, b))
  {
    PartsDetermine(serverKey, requestKey, a, serverKey', requestKey', b);
    var xs, ys := KeyParts(serverKey, requestKey, a), KeyParts(serverKey', requestKey', b);
    if Key(digest, serverKey, requestKey, a) == Key(digest, serverKey', requestKey', b) {
      JoinIsInjective(xs, ys);
      ArgumentsDetermined(a, b);
    }
  }

  // URLs are told from hashes by their colon, and a base source that is there is also passed on.
  predicate Tidy(w: Work) {
    && TidyOrigin(w.head) && TidyOrigin(w.tooling)
    && (w.base.Some? ==> w.passesBase && TidyOrigin(w.base.value))
  }

  predicate TidyOrigin(o: Origin) { o.Link? <==> ':' in Component(o) }

  // For such requests a shared key means the same arguments, but for the architecture of runs without a testcase.
  lemma SharedKeyIsSharedWork(digest: string -> string, serverKey: string, requestKey: string, a: Work, b: Work)
    requires CollisionFree(digest) && a.Valid() && b.Valid() && Tidy(a) && Tidy(b)
    requires OneLineKey(serverKey, requestKey, a) && OneLineKey(serverKey, requestKey, b)
    requires Key(digest, serverKey, requestKey, a) == Key(digest, serverKey, requestKey, b)
    ensures SameArguments(a, b) <==> a.architecture == b.architecture
    ensures a.testcase.Some? || b.testcase.Some? ==> SameArguments(a, b)
  {
    SameKeyMeaning(digest, serverKey, requestKey, a, serverKey, requestKey, b);
    if a.base.Some? {
      assert |BaseParts(a.base)| == |BaseParts(b.base)|;
      BasePartsDetermine(a, b);
    } else {
      assert |BaseParts(a.base)| == |BaseParts(b.base)|;
    }
  }

  // Without a testcase the architecture is left out of the key, and yet changes the arguments.
  lemma ArchitectureIsNotKeyed(digest: string -> string, serverKey: string, requestKey: string, w: Work, other: string)
    requires w.Valid() && w.testcase.None? && other != w.architecture
    ensures Key(digest, serverKey, requestKey, w.(architecture := other)) == Key(digest, serverKey, requestKey, w)
    ensures !SameArguments(w.(architecture := other), w)
  {
    ArgumentsDetermined(w.(architecture := other), w);
  }
}
