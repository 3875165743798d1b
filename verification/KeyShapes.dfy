// Which requests a cache key determines: collisions may also come from requests of another shape.
module KeyShapes {
  import opened Types
  import opened CacheKey
  import opened KeyTexts

  predicate IsBool(s: string) { s == FormatBool(true) || s == FormatBool(false) }

  // Names of blobs, for instance hexadecimal digests: one line each, and no boolean.
  ghost predicate BlobNames(names: string -> bool) {
    forall s :: names(s) ==> OneLine(s) && !IsBool(s)
  }

  predicate Named(names: string -> bool, w: Work) {
    (w.testcase.Some? ==> names(w.testcase.value.blob)) && (w.patch.Some? ==> names(w.patch.value))
  }

  // Every request with this key agrees with this one on all that is keyed.
  ghost predicate OwnsKey(digest: string -> string, names: string -> bool, serverKey: string, requestKey: string,
                          w: Work)
  {
    forall other: string, b: Work ::
      b.Valid() && Named(names, b) && Key(digest, serverKey, other, b) == Key(digest, serverKey, requestKey, w) ==>
        other == requestKey && AgreeOnKey(w, b)
  }

  // The last harness texts do not read as the end of the key of another request.
  predicate PlainRun(names: string -> bool, t: Testcase) {
    !IsBool(t.engine) && !(IsBool(t.sanitizer) && t.fuzzer == PATCH && names(t.engine))
  }

  predicate Unambiguous(names: string -> bool, requestKey: string, w: Work) {
    && OneLineEach(Texts(requestKey, w)) && w.base.None? && !(w.testcase.Some? && w.patch.Some?)
    && (w.testcase.Some? ==> PlainRun(names, w.testcase.value))
  }

  /* ----------------------------------------------- the key without the server's part */

  function Tail(w: Work): seq<string> { BlobParts(w) + RunTexts(w) + PatchParts(w.patch) }

  function Asked(requestKey: string, w: Work): seq<string> {
    FrontTexts(requestKey, w) + [FormatBool(w.skipPatchTests)] + Tail(w)
  }

  lemma KeyIsAsked(serverKey: string, requestKey: string, w: Work)
    ensures KeyParts(serverKey, requestKey, w) == [serverKey] + Asked(requestKey, w)
  {
    SplitAtTexts(serverKey, requestKey, w);
  }

  lemma SameTextAsked(serverKey: string, requestKey: string, a: Work, other: string, b: Work)
    ensures Join(KeyParts(serverKey, requestKey, a)) == Join(KeyParts(serverKey, other, b))
            <==> Join(Asked(requestKey, a)) == Join(Asked(other, b))
  {
    KeyIsAsked(serverKey, requestKey, a);
    KeyIsAsked(serverKey, other, b);
    JoinConcat([serverKey], Asked(requestKey, a));
    JoinConcat([serverKey], Asked(other, b));
    var n := |serverKey + NEWLINE|;
    assert (serverKey + NEWLINE + Join(Asked(requestKey, a)))[n..] == Join(Asked(requestKey, a));
    assert (serverKey + NEWLINE + Join(Asked(other, b)))[n..] == Join(Asked(other, b));
  }

  // With the same server part, keys are the same iff the rest joins alike.
  lemma SameKeyIsSameText(digest: string -> string, serverKey: string, requestKey: string, a: Work,
                          other: string, b: Work)
    ensures Join(Asked(requestKey, a)) == Join(Asked(other, b)) ==>
              Key(digest, serverKey, requestKey, a) == Key(digest, serverKey, other, b)
    ensures CollisionFree(digest) && Key(digest, serverKey, requestKey, a) == Key(digest, serverKey, other, b) ==>
              Join(Asked(requestKey, a)) == Join(Asked(other, b))
  {
    SameTextAsked(serverKey, requestKey, a, other, b);
  }

  /* ----------------------------------------------- lines */

  function Split(s: string): (lines: seq<string>)
    ensures lines != []
  {
    if s == "" then [""]
    else
      var rest := Split(s[1..]);
      if s[0] == '\n' then [""] + rest else [[s[0]] + rest[0]] + rest[1..]
  }

  // A character put before the first of some lines.
  lemma JoinPrefixed(c: char, lines: seq<string>)
    requires lines != []
    ensures Join([[c] + lines[0]] + lines[1..]) == [c] + Join(lines)
  {
    assert ([[c] + lines[0]] + lines[1..])[1..] == lines[1..];
    if |lines| > 1 {
      assert [c] + lines[0] + NEWLINE + Join(lines[1..]) == [c] + (lines[0] + NEWLINE + Join(lines[1..]));
    }
  }

  lemma JoinEmptyFirst(lines: seq<string>)
    requires lines != []
    ensures Join([""] + lines) == NEWLINE + Join(lines)
  {
    assert ([""] + lines)[1..] == lines;
    assert "" + NEWLINE == NEWLINE;
  }

  lemma {:induction false} SplitMeaning(s: string)
    ensures OneLineEach(Split(s)) && Join(Split(s)) == s
    decreases |s|
  {
    if s != "" {
      var rest := Split(s[1..]);
      SplitMeaning(s[1..]);
      assert s == [s[0]] + s[1..];
      if s[0] == '\n' {
        JoinEmptyFirst(rest);
      } else {
        JoinPrefixed(s[0], rest);
        assert OneLine(rest[0]);
        assert OneLine([s[0]] + rest[0]);
      }
    }
  }

  lemma SplitOneLine(s: string)
    ensures |Split(s)| == 1 ==> Split(s) == [s]
    ensures OneLine(s) ==> Split(s) == [s]
  {
    SplitMeaning(s);
    if |Split(s)| > 1 {
      JoinOfMany(Split(s));
    }
  }

  // The lines of all parts in a row.
  function Lines(parts: seq<string>): seq<string> {
    if parts == [] then [] else Split(parts[0]) + Lines(parts[1..])
  }

  lemma {:induction false} LinesConcat(a: seq<string>, b: seq<string>)
    ensures Lines(a + b) == Lines(a) + Lines(b)
    decreases |a|
  {
    if a == [] {
      assert a + b == b;
    } else {
      LinesConcat(a[1..], b);
      assert (a + b)[1..] == a[1..] + b;
    }
  }

  lemma {:induction false} LinesMeaning(parts: seq<string>)
    ensures |Lines(parts)| >= |parts| && OneLineEach(Lines(parts)) && Join(Lines(parts)) == Join(parts)
    ensures |Lines(parts)| == |parts| || OneLineEach(parts) ==> Lines(parts) == parts
    decreases |parts|
  {
    if parts != [] {
      var rest := parts[1..];
      SplitMeaning(parts[0]);
      SplitOneLine(parts[0]);
      LinesMeaning(rest);
      assert parts == [parts[0]] + rest;
      if rest == [] {
        assert Lines(parts) == Split(parts[0]);
      } else {
        JoinConcat(Split(parts[0]), Lines(rest));
      }
    }
  }

  /* ----------------------------------------------- unambiguous requests own their keys */

  lemma NamesAreOneLine(names: string -> bool, w: Work)
    requires BlobNames(names) && Named(names, w)
    ensures OneLineEach(BlobParts(w)) && OneLineEach(PatchParts(w.patch))
  {
  }

  lemma UnambiguousIsOneLine(names: string -> bool, requestKey: string, w: Work)
    requires BlobNames(names) && Named(names, w) && OneLineEach(Texts(requestKey, w))
    ensures OneLineEach(Asked(requestKey, w))
  {
    var front, run := FrontTexts(requestKey, w), RunTexts(w);
    assert forall i :: 0 <= i < |front| ==> front[i] == Texts(requestKey, w)[i];
    assert forall i :: 0 <= i < |run| ==> run[i] == Texts(requestKey, w)[|front| + i];
    NamesAreOneLine(names, w);
    OneLineBoth(BlobParts(w), run);
    OneLineBoth(BlobParts(w) + run, PatchParts(w.patch));
    OneLineBoth(front, [FormatBool(w.skipPatchTests)]);
    OneLineBoth(front + [FormatBool(w.skipPatchTests)], Tail(w));
  }

  lemma OneLineBoth(a: seq<string>, b: seq<string>)
    requires OneLineEach(a) && OneLineEach(b)
    ensures OneLineEach(a + b)
  {
  }

  // Only the texts of a request can take more than one line.
  lemma LinesOfTail(names: string -> bool, b: Work)
    requires BlobNames(names) && Named(names, b)
    ensures Lines(Tail(b)) == BlobParts(b) + Lines(RunTexts(b)) + PatchParts(b.patch)
  {
    LinesConcat(BlobParts(b) + RunTexts(b), PatchParts(b.patch));
    LinesConcat(BlobParts(b), RunTexts(b));
    NamesAreOneLine(names, b);
    LinesMeaning(BlobParts(b));
    LinesMeaning(PatchParts(b.patch));
  }

  lemma LinesOfAsked(names: string -> bool, requestKey: string, b: Work)
    requires BlobNames(names) && Named(names, b)
    ensures Lines(Asked(requestKey, b)) == Lines(FrontTexts(requestKey, b)) + [FormatBool(b.skipPatchTests)]
                                           + (BlobParts(b) + Lines(RunTexts(b)) + PatchParts(b.patch))
  {
    var skip := [FormatBool(b.skipPatchTests)];
    LinesConcat(FrontTexts(requestKey, b) + skip, Tail(b));
    LinesConcat(FrontTexts(requestKey, b), skip);
    assert OneLineEach(skip);
    LinesMeaning(skip);
    LinesOfTail(names, b);
  }

  // A request that joins like a one-line one has its parts as lines.
  lemma LinesOfOther(names: string -> bool, requestKey: string, w: Work, other: string, b: Work)
    requires BlobNames(names) && Named(names, b) && OneLineEach(Asked(requestKey, w))
    requires Join(Asked(requestKey, w)) == Join(Asked(other, b))
    ensures Asked(requestKey, w) == Lines(FrontTexts(other, b)) + [FormatBool(b.skipPatchTests)]
                                    + (BlobParts(b) + Lines(RunTexts(b)) + PatchParts(b.patch))
  {
    LinesMeaning(Asked(other, b));
    JoinIsInjective(Asked(requestKey, w), Lines(Asked(other, b)));
    LinesOfAsked(names, other, b);
  }

  lemma AskedAt(requestKey: string, w: Work)
    requires w.base.None? && !(w.testcase.Some? && w.patch.Some?)
    ensures var parts := Asked(requestKey, w);
            && |parts| == 6 + 6 * Bit(w.testcase.Some?) + 2 * Bit(w.patch.Some?)
            && (w.testcase.Some? ==>
                  && parts[9] == w.testcase.value.sanitizer && parts[10] == w.testcase.value.fuzzer
                  && parts[11] == w.testcase.value.engine)
            && (w.patch.Some? ==> parts[7] == w.patch.value)
  {
  }

  // The lines leave room for one shape only.
  lemma ShapeFromLines(names: string -> bool, requestKey: string, w: Work, b: Work,
                       front: seq<string>, run: seq<string>)
    requires BlobNames(names) && Named(names, w) && Named(names, b) && Unambiguous(names, requestKey, w)
    requires |front| >= 5 + Bit(b.base.Some?) && |run| >= 4 * Bit(b.testcase.Some?) && (b.testcase.None? ==> run == [])
    requires Asked(requestKey, w) == front + [FormatBool(b.skipPatchTests)] + (BlobParts(b) + run + PatchParts(b.patch))
    ensures b.base.None? && b.testcase.Some? == w.testcase.Some? && b.patch.Some? == w.patch.Some?
    ensures |front| == 5 && |run| == 4 * Bit(b.testcase.Some?)
  {
    var parts, tail := Asked(requestKey, w), BlobParts(b) + run + PatchParts(b.patch);
    AskedAt(requestKey, w);
    assert parts[|front|] == FormatBool(b.skipPatchTests);
    assert |parts| == |front| + 1 + |tail|;
    assert |tail| == 2 * Bit(b.testcase.Some?) + |run| + 2 * Bit(b.patch.Some?);
    if b.testcase.None? && b.patch.Some? {
      assert tail == PatchParts(b.patch);
      assert parts[|front| + 1] == tail[0] && parts[|front| + 2] == tail[1];
    }
  }

  lemma UnambiguousDetermines(names: string -> bool, requestKey: string, w: Work, other: string, b: Work)
    requires BlobNames(names) && Named(names, w) && Named(names, b) && Unambiguous(names, requestKey, w)
    requires Join(Asked(requestKey, w)) == Join(Asked(other, b))
    ensures Asked(requestKey, w) == Asked(other, b)
  {
    var front, run := Lines(FrontTexts(other, b)), Lines(RunTexts(b));
    UnambiguousIsOneLine(names, requestKey, w);
    LinesOfOther(names, requestKey, w, other, b);
    LinesMeaning(FrontTexts(other, b));
    LinesMeaning(RunTexts(b));
    ShapeFromLines(names, requestKey, w, b, front, run);
  }

  /* ----------------------------------------------- ambiguous requests share them */

  // The same request with every source given as a URL.
  function Loose(w: Work): Work {
    w.(head := Link(Component(w.head)), tooling := Link(Component(w.tooling)),
       base := if w.base.Some? then Some(Link(Component(w.base.value))) else None)
  }

  // Several parts joined into one text leave the whole text as it is.
  lemma Merged(front: seq<string>, middle: seq<string>, back: seq<string>)
    requires middle != []
    ensures Join(front + [Join(middle)] + back) == Join(front + middle + back)
  {
    JoinAround(front, [Join(middle)], middle, back);
  }

  // The other request may be sent, has the same text, and means different arguments.
  predicate Collides(names: string -> bool, requestKey: string, w: Work, other: string, b: Work)
    requires w.Valid()
  {
    && Askable(b) && Named(names, b) && Join(Asked(requestKey, w)) == Join(Asked(other, b))
    && !AgreeOnKey(w, b) && !SameArguments(w, b)
  }

  function AfterRequestKey(w: Work): seq<string> {
    [Component(w.head), Component(w.tooling)] + BaseParts(w.base) + [w.focus, w.project]
    + [FormatBool(w.skipPatchTests)] + Tail(w)
  }

  lemma RequestKeyFirst(requestKey: string, w: Work)
    ensures Join(Asked(requestKey, w)) == requestKey + NEWLINE + Join(AfterRequestKey(w))
  {
    assert Asked(requestKey, w) == [requestKey] + AfterRequestKey(w);
    JoinConcat([requestKey], AfterRequestKey(w));
  }

  lemma AgreeingTails(a: Work, b: Work)
    requires AgreeOnKey(a, b)
    ensures AfterRequestKey(a) == AfterRequestKey(b)
  {
    AgreeingTexts("", a, "", b);
  }

  lemma SamePrefix(a: string, b: string, rest: string)
    requires a + rest == b + rest
    ensures a == b
  {
    assert |a + rest| == |b + rest|;
    assert a == (a + rest)[..|a|] && b == (b + rest)[..|b|];
  }

  lemma AgreeingRequestKeys(requestKey: string, w: Work, other: string, b: Work)
    requires AgreeOnKey(w, b) && Join(Asked(requestKey, w)) == Join(Asked(other, b))
    ensures other == requestKey
  {
    RequestKeyFirst(requestKey, w);
    RequestKeyFirst(other, b);
    AgreeingTails(w, b);
    var rest := NEWLINE + Join(AfterRequestKey(w));
    assert requestKey + rest == requestKey + NEWLINE + Join(AfterRequestKey(w));
    assert other + rest == other + NEWLINE + Join(AfterRequestKey(b));
    SamePrefix(requestKey, other, rest);
  }

  // Without a base, requests with the same text that differ at all differ in their arguments.
  lemma OtherTextsOtherArguments(requestKey: string, w: Work, other: string, b: Work)
    requires w.base.None? && b.base.None? && !w.passesBase && !b.passesBase
    requires Join(Asked(requestKey, w)) == Join(Asked(other, b)) && !(other == requestKey && AgreeOnKey(w, b))
    ensures !AgreeOnKey(w, b) && !SameArguments(w, b)
  {
    if AgreeOnKey(w, b) {
      AgreeingRequestKeys(requestKey, w, other, b);
    }
    if SameArguments(w, b) {
      ArgumentsTellAll(Contents(w), Contents(b));
    }
  }

  function WithoutBase(w: Work): Work
    requires w.base.Some?
  {
    Loose(w).(base := None, passesBase := false,
              tooling := Link(Join([Component(w.tooling), Component(w.base.value)])))
  }

  lemma AskedWithBase(requestKey: string, w: Work)
    requires w.base.Some?
    ensures Join(Asked(requestKey, WithoutBase(w))) == Join(Asked(requestKey, w))
  {
    var b := WithoutBase(w);
    var pair := [Component(w.tooling), Component(w.base.value)];
    var front, back := [requestKey, Component(w.head)], [w.focus, w.project] + [FormatBool(w.skipPatchTests)] + Tail(w);
    assert Asked(requestKey, w) == front + pair + back;
    assert Asked(requestKey, b) == front + [Join(pair)] + back;
    Merged(front, pair, back);
  }

  lemma ToolingArgument(w: Work)
    requires w.Valid()
    ensures |Arguments(Contents(w))| > 3 && Arguments(Contents(w))[3] == LinkTo(Content(w.tooling))
  {
  }

  // A base source can be taken for the second line of the tooling.
  lemma BaseCollides(names: string -> bool, requestKey: string, w: Work) returns (b: Work)
    requires Named(names, w) && w.base.Some? && w.Valid()
    ensures Collides(names, requestKey, w, requestKey, b)
  {
    b := WithoutBase(w);
    AskedWithBase(requestKey, w);
    assert |BaseParts(b.base)| != |BaseParts(w.base)|;
    JoinPair(Component(w.tooling), Component(w.base.value));
    ToolingArgument(w);
    ToolingArgument(b);
  }

  // After a testcase, a patch can be taken for more lines of the engine.
  lemma BothCollide(names: string -> bool, requestKey: string, w: Work) returns (b: Work)
    requires Named(names, w) && w.base.None? && !w.passesBase && w.testcase.Some? && w.patch.Some?
    ensures Collides(names, requestKey, w, requestKey, b)
  {
    var t := w.testcase.value;
    var last := [t.engine] + PatchParts(w.patch);
    b := Loose(w).(patch := None, testcase := Some(t.(engine := Join(last))));
    var front := FrontTexts(requestKey, w) + [FormatBool(w.skipPatchTests)]
                 + (BlobParts(w) + [w.architecture, t.sanitizer, t.fuzzer]);
    assert FrontTexts(requestKey, b) == FrontTexts(requestKey, w);
    assert Asked(requestKey, w) == front + last + [];
    assert Asked(requestKey, b) == front + [Join(last)] + [];
    Merged(front, last, []);
    OtherTextsOtherArguments(requestKey, w, requestKey, b);
  }

  // The part of a key with a testcase before its project name, and from there to a harness text.
  function BeforeProject(requestKey: string, w: Work): seq<string> {
    [requestKey, Component(w.head), Component(w.tooling)] + BaseParts(w.base) + [w.focus]
  }

  function FromProject(w: Work): seq<string>
    requires w.testcase.Some?
  {
    [w.project, FormatBool(w.skipPatchTests), TESTCASE, w.testcase.value.blob, w.architecture]
  }

  lemma AskedFromProject(requestKey: string, w: Work)
    requires w.testcase.Some? && w.patch.None?
    ensures var t := w.testcase.value;
            Asked(requestKey, w) == BeforeProject(requestKey, w) + FromProject(w) + [t.sanitizer, t.fuzzer, t.engine]
  {
  }

  // The request without a testcase whose project name has taken some parts in.
  function Absorbing(w: Work, parts: seq<string>, skip: string, patch: Option<string>): Work {
    Loose(w).(project := Join(parts), skipPatchTests := skip == FormatBool(true), testcase := None, patch := patch)
  }

  lemma AbsorbingAsks(requestKey: string, w: Work, parts: seq<string>, skip: string, patch: Option<string>)
    requires parts != [] && IsBool(skip) && w.base.None?
    ensures Join(Asked(requestKey, Absorbing(w, parts, skip, patch)))
         == Join(BeforeProject(requestKey, w) + parts + ([skip] + PatchParts(patch)))
  {
    var b := Absorbing(w, parts, skip, patch);
    assert FormatBool(b.skipPatchTests) == skip;
    assert Asked(requestKey, b) == BeforeProject(requestKey, w) + [Join(parts)] + ([skip] + PatchParts(patch));
    Merged(BeforeProject(requestKey, w), parts, [skip] + PatchParts(patch));
  }

  // An engine that reads as a boolean can be taken for the end of a request without a testcase.
  lemma EngineCollides(names: string -> bool, requestKey: string, w: Work) returns (b: Work)
    requires w.base.None? && !w.passesBase && w.testcase.Some? && w.patch.None? && IsBool(w.testcase.value.engine)
    ensures Collides(names, requestKey, w, requestKey, b)
  {
    var t := w.testcase.value;
    var parts := FromProject(w) + [t.sanitizer, t.fuzzer];
    b := Absorbing(w, parts, t.engine, None);
    AskedFromProject(requestKey, w);
    AbsorbingAsks(requestKey, w, parts, t.engine, None);
    assert BeforeProject(requestKey, w) + parts + ([t.engine] + PatchParts(None))
        == BeforeProject(requestKey, w) + FromProject(w) + [t.sanitizer, t.fuzzer, t.engine];
    OtherTextsOtherArguments(requestKey, w, requestKey, b);
  }

  // So can a boolean, `patch` and a name for the end of a request with a patch.
  lemma HarnessCollides(names: string -> bool, requestKey: string, w: Work) returns (b: Work)
    requires w.base.None? && !w.passesBase && w.testcase.Some? && w.patch.None? && names(w.testcase.value.engine)
    requires IsBool(w.testcase.value.sanitizer) && w.testcase.value.fuzzer == PATCH
    ensures Collides(names, requestKey, w, requestKey, b)
  {
    var t := w.testcase.value;
    b := Absorbing(w, FromProject(w), t.sanitizer, Some(t.engine));
    AskedFromProject(requestKey, w);
    AbsorbingAsks(requestKey, w, FromProject(w), t.sanitizer, Some(t.engine));
    assert [t.sanitizer] + PatchParts(Some(t.engine)) == [t.sanitizer, t.fuzzer, t.engine];
    OtherTextsOtherArguments(requestKey, w, requestKey, b);
  }

  lemma LooseAsks(requestKey: string, w: Work)
    ensures Texts(requestKey, Loose(w)) == Texts(requestKey, w) && Asked(requestKey, Loose(w)) == Asked(requestKey, w)
  {
  }

  lemma NewlineCollides(names: string -> bool, requestKey: string, w: Work) returns (other: string, b: Work)
    requires Named(names, w) && w.base.None? && !w.passesBase && !OneLineEach(Texts(requestKey, w))
    ensures Collides(names, requestKey, w, other, b)
  {
    LooseAsks(requestKey, w);
    other, b := TextsCollide("", requestKey, Loose(w));
    SameTextAsked("", requestKey, Loose(w), other, b);
    OtherTextsOtherArguments(requestKey, w, other, b);
  }

  // A request that is not unambiguous shares its text with another one, which may well be sent: with URLs for
  // all sources and no task.
  lemma AmbiguousCollides(names: string -> bool, requestKey: string, w: Work) returns (other: string, b: Work)
    requires Named(names, w) && w.Valid() && !Unambiguous(names, requestKey, w)
    ensures Collides(names, requestKey, w, other, b)
  {
    other := requestKey;
    if w.base.Some? {
      b := BaseCollides(names, requestKey, w);
    } else if !OneLineEach(Texts(requestKey, w)) {
      other, b := NewlineCollides(names, requestKey, w);
    } else if w.patch.Some? {
      b := BothCollide(names, requestKey, w);
    } else if IsBool(w.testcase.value.engine) {
      b := EngineCollides(names, requestKey, w);
    } else {
      b := HarnessCollides(names, requestKey, w);
    }
  }

  // A request owns its key, among all requests, exactly when its texts have one line each, it has no base, not
  // both a testcase and a patch, and no harness texts that read as the end of another key.
  lemma OwnsKeyIff(digest: string -> string, names: string -> bool, serverKey: string, requestKey: string, w: Work)
    requires CollisionFree(digest) && BlobNames(names) && w.Valid() && Named(names, w)
    ensures OwnsKey(digest, names, serverKey, requestKey, w) <==> Unambiguous(names, requestKey, w)
  {
    if Unambiguous(names, requestKey, w) {
      forall other: string, b: Work | b.Valid() && Named(names, b)
                                      && Key(digest, serverKey, other, b) == Key(digest, serverKey, requestKey, w)
        ensures other == requestKey && AgreeOnKey(w, b)
      {
        SameKeyIsSameText(digest, serverKey, requestKey, w, other, b);
        UnambiguousDetermines(names, requestKey, w, other, b);
        KeyIsAsked(serverKey, requestKey, w);
        KeyIsAsked(serverKey, other, b);
        PartsDetermine(serverKey, requestKey, w, serverKey, other, b);
      }
    } else {
      var other, b := AmbiguousCollides(names, requestKey, w);
      SameKeyIsSameText(digest, serverKey, requestKey, w, other, b);
    }
  }
}
