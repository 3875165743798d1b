// When a cache key tells the texts of a request apart, among requests of one shape: exactly when none of them
// has a newline.
module KeyTexts {
  import opened Types
  import opened CacheKey

  // The harness texts, which are keyed only with a testcase.
  function RunTexts(w: Work): seq<string> {
    if w.testcase.None? then []
    else [w.architecture, w.testcase.value.sanitizer, w.testcase.value.fuzzer, w.testcase.value.engine]
  }

  // The texts a requester may choose at the front of the key.
  function FrontTexts(requestKey: string, w: Work): seq<string> {
    [requestKey, Component(w.head), Component(w.tooling)] + BaseParts(w.base) + [w.focus, w.project]
  }

  function Texts(requestKey: string, w: Work): seq<string> { FrontTexts(requestKey, w) + RunTexts(w) }

  // The same but for those texts: the shape, the blobs, and whether the tests are skipped.
  predicate Comparable(a: Work, b: Work) {
    && a.base.Some? == b.base.Some? && a.passesBase == b.passesBase && a.skipPatchTests == b.skipPatchTests
    && a.testcase.Some? == b.testcase.Some? && (a.testcase.Some? ==> a.testcase.value.blob == b.testcase.value.blob)
    && a.patch == b.patch
  }

  ghost predicate Determined(digest: string -> string, serverKey: string, requestKey: string, w: Work) {
    forall other: string, b: Work ::
      Comparable(w, b) && Key(digest, serverKey, other, b) == Key(digest, serverKey, requestKey, w) ==>
        other == requestKey && AgreeOnKey(w, b)
  }

  /* ----------------------------------------------- joining in parts */

  lemma {:induction false} JoinConcat(a: seq<string>, b: seq<string>)
    requires a != [] && b != []
    ensures Join(a + b) == Join(a) + NEWLINE + Join(b)
    decreases |a|
  {
    assert (a + b)[1..] == a[1..] + b;
    if |a| > 1 {
      JoinConcat(a[1..], b);
      assert Join(a + b) == a[0] + NEWLINE + (Join(a[1..]) + NEWLINE + Join(b));
    } else {
      assert a[1..] + b == b;
    }
  }

  lemma JoinBefore(left: seq<string>, right: seq<string>, back: seq<string>)
    requires left != [] && right != [] && Join(left) == Join(right)
    ensures Join(left + back) == Join(right + back)
  {
    if back == [] {
      assert left + back == left && right + back == right;
    } else {
      JoinConcat(left, back);
      JoinConcat(right, back);
    }
  }

  lemma JoinAfter(front: seq<string>, left: seq<string>, right: seq<string>)
    requires left != [] && right != [] && Join(left) == Join(right)
    ensures Join(front + left) == Join(front + right)
  {
    if front == [] {
      assert front + left == left && front + right == right;
    } else {
      JoinConcat(front, left);
      JoinConcat(front, right);
    }
  }

  // Lists that join alike may be exchanged within a list.
  lemma JoinAround(front: seq<string>, left: seq<string>, right: seq<string>, back: seq<string>)
    requires left != [] && right != [] && Join(left) == Join(right)
    ensures Join(front + left + back) == Join(front + right + back)
  {
    JoinAfter(front, left, right);
    JoinBefore(front + left, front + right, back);
  }

  lemma JoinPair(x: string, y: string)
    ensures Join([x, y]) == x + NEWLINE + y
  {
    assert [x, y][1..] == [y];
  }

  /* ----------------------------------------------- one line each: determined */

  function Newlines(s: string): nat {
    if s == "" then 0 else Newlines(s[..|s| - 1]) + Bit(s[|s| - 1] == '\n')
  }

  lemma {:induction false} NewlinesAdd(a: string, b: string)
    ensures Newlines(a + NEWLINE + b) == Newlines(a) + 1 + Newlines(b)
    decreases |b|
  {
    var s := a + NEWLINE + b;
    if b == "" {
      assert s[..|s| - 1] == a;
    } else {
      NewlinesAdd(a, b[..|b| - 1]);
      assert s[..|s| - 1] == a + NEWLINE + b[..|b| - 1];
    }
  }

  lemma {:induction false} NoNewlines(s: string)
    ensures Newlines(s) == 0 <==> OneLine(s)
    decreases |s|
  {
    if s != "" {
      NoNewlines(s[..|s| - 1]);
      assert s == s[..|s| - 1] + [s[|s| - 1]];
    }
  }

  // Each part is the same in both lists or has one line in the first.
  predicate Fits(xs: seq<string>, ys: seq<string>) {
    |xs| == |ys| && forall i :: 0 <= i < |xs| ==> xs[i] == ys[i] || OneLine(xs[i])
  }

  lemma JoinedNewlines(xs: seq<string>)
    requires |xs| > 1
    ensures Newlines(Join(xs)) == Newlines(xs[0]) + 1 + Newlines(Join(xs[1..]))
  {
    NewlinesAdd(xs[0], Join(xs[1..]));
  }

  lemma FirstFits(xs: seq<string>, ys: seq<string>)
    requires |xs| == |ys| > 0 && (xs[0] == ys[0] || OneLine(ys[0])) && Fits(ys[1..], xs[1..])
    ensures Fits(ys, xs)
  {
    assert forall i :: 1 <= i < |ys| ==> xs[i] == xs[1..][i - 1] && ys[i] == ys[1..][i - 1];
  }

  // The first list has the fewest newlines such a list can have; with as many, the second has one-line parts too.
  lemma {:induction false} FewestNewlines(xs: seq<string>, ys: seq<string>)
    requires Fits(xs, ys) && xs != []
    ensures Newlines(Join(xs)) <= Newlines(Join(ys))
    ensures Newlines(Join(xs)) == Newlines(Join(ys)) ==> Fits(ys, xs)
    decreases |xs|
  {
    NoNewlines(xs[0]);
    NoNewlines(ys[0]);
    if |xs| > 1 {
      FewestNewlines(xs[1..], ys[1..]);
      JoinedNewlines(xs);
      JoinedNewlines(ys);
      if Newlines(Join(xs)) == Newlines(Join(ys)) {
        FirstFits(xs, ys);
      }
    }
  }

  lemma {:induction false} PartsPeel(xs: seq<string>, ys: seq<string>)
    requires Fits(xs, ys) && Fits(ys, xs) && xs != [] && Join(xs) == Join(ys)
    ensures xs == ys
    decreases |xs|
  {
    if |xs| > 1 {
      if xs[0] == ys[0] {
        var n := |xs[0] + NEWLINE|;
        assert Join(xs)[n..] == Join(xs[1..]) && Join(ys)[n..] == Join(ys[1..]);
      } else {
        SplitAtNewline(xs[0], Join(xs[1..]), ys[0], Join(ys[1..]));
      }
      PartsPeel(xs[1..], ys[1..]);
      assert xs == [xs[0]] + xs[1..] && ys == [ys[0]] + ys[1..];
    }
  }

  lemma OneLineDetermines(digest: string -> string, serverKey: string, requestKey: string, w: Work,
                          other: string, b: Work)
    requires CollisionFree(digest) && OneLineEach(Texts(requestKey, w)) && Comparable(w, b)
    requires Key(digest, serverKey, other, b) == Key(digest, serverKey, requestKey, w)
    ensures other == requestKey && AgreeOnKey(w, b)
  {
    var xs, ys := KeyParts(serverKey, requestKey, w), KeyParts(serverKey, other, b);
    TextsFit(serverKey, requestKey, w, other, b);
    FewestNewlines(xs, ys);
    PartsPeel(xs, ys);
    PartsDetermine(serverKey, requestKey, w, serverKey, other, b);
  }

  lemma TextsFit(serverKey: string, requestKey: string, w: Work, other: string, b: Work)
    requires OneLineEach(Texts(requestKey, w)) && Comparable(w, b)
    ensures Fits(KeyParts(serverKey, requestKey, w), KeyParts(serverKey, other, b))
  {
    var front, run := FrontTexts(requestKey, w), RunTexts(w);
    assert forall i :: 0 <= i < |front| ==> front[i] == Texts(requestKey, w)[i];
    assert forall i :: 0 <= i < |run| ==> run[i] == Texts(requestKey, w)[|front| + i];
    SplitAtTexts(serverKey, requestKey, w);
    SplitAtTexts(serverKey, other, b);
    FitsAround([serverKey], front, FrontTexts(other, b), [FormatBool(w.skipPatchTests)]);
    FitsAround(BlobParts(w), run, RunTexts(b), PatchParts(w.patch));
    FitsBoth([serverKey] + front + [FormatBool(w.skipPatchTests)],
             [serverKey] + FrontTexts(other, b) + [FormatBool(w.skipPatchTests)],
             BlobParts(w) + run + PatchParts(w.patch), BlobParts(w) + RunTexts(b) + PatchParts(w.patch));
  }

  function BlobParts(w: Work): seq<string> {
    if w.testcase.None? then [] else [TESTCASE, w.testcase.value.blob]
  }

  // The key's list with its texts in the middle of each half.
  lemma SplitAtTexts(serverKey: string, requestKey: string, w: Work)
    ensures FrontParts(serverKey, requestKey, w)
         == [serverKey] + FrontTexts(requestKey, w) + [FormatBool(w.skipPatchTests)]
    ensures TestcaseParts(w.testcase, w.architecture) == BlobParts(w) + RunTexts(w)
    ensures KeyParts(serverKey, requestKey, w)
         == FrontParts(serverKey, requestKey, w) + (BlobParts(w) + RunTexts(w) + PatchParts(w.patch))
  {
  }

  lemma FitsAround(front: seq<string>, xs: seq<string>, ys: seq<string>, back: seq<string>)
    requires |xs| == |ys| && OneLineEach(xs)
    ensures Fits(front + xs + back, front + ys + back)
  {
  }

  lemma FitsBoth(xs: seq<string>, ys: seq<string>, xs': seq<string>, ys': seq<string>)
    requires Fits(xs, ys) && Fits(xs', ys')
    ensures Fits(xs + xs', ys + ys')
  {
  }

  /* ----------------------------------------------- a newline: not determined */

  // A newline in a list of several texts lets another list of as many texts join alike.
  lemma Shifted(texts: seq<string>) returns (other: seq<string>)
    requires |texts| >= 2 && !OneLineEach(texts)
    ensures |other| == |texts| && other != texts && Join(other) == Join(texts)
  {
    var i :| 0 <= i < |texts| && !OneLine(texts[i]);
    var q :| 0 <= q < |texts[i]| && texts[i][q] == '\n';
    var before, after := texts[i][..q], texts[i][q + 1..];
    assert texts[i] == before + NEWLINE + after;
    if i + 1 < |texts| {
      var y := texts[i + 1];
      assert before + NEWLINE + after + NEWLINE + y == before + NEWLINE + (after + NEWLINE + y);
      other := ExchangePair(texts, i, before, after + NEWLINE + y);
    } else {
      var x := texts[i - 1];
      assert x + NEWLINE + (before + NEWLINE + after) == x + NEWLINE + before + NEWLINE + after;
      other := ExchangePair(texts, i - 1, x + NEWLINE + before, after);
    }
  }

  lemma ExchangePair(texts: seq<string>, i: nat, x: string, y: string) returns (other: seq<string>)
    requires i + 1 < |texts| && x + NEWLINE + y == texts[i] + NEWLINE + texts[i + 1] && |x| != |texts[i]|
    ensures |other| == |texts| && other != texts && Join(other) == Join(texts)
  {
    other := texts[i := x][i + 1 := y];
    assert other[i] != texts[i];
    JoinPair(x, y);
    JoinPair(texts[i], texts[i + 1]);
    JoinAround(texts[..i], [texts[i], texts[i + 1]], [x, y], texts[i + 2..]);
    assert texts == texts[..i] + [texts[i], texts[i + 1]] + texts[i + 2..];
    assert other == texts[..i] + [x, y] + texts[i + 2..];
  }

  // The request with other texts at the front.
  function WithFront(w: Work, texts: seq<string>): Work
    requires |texts| == 5 + |BaseParts(w.base)|
  {
    var n := |texts|;
    w.(head := Link(texts[1]), tooling := Link(texts[2]), base := if w.base.Some? then Some(Link(texts[3])) else None,
       focus := texts[n - 2], project := texts[n - 1])
  }

  function WithRun(w: Work, texts: seq<string>): Work
    requires w.testcase.Some? && |texts| == 4
  {
    w.(architecture := texts[0],
       testcase := Some(Testcase(w.testcase.value.blob, texts[1], texts[2], texts[3])))
  }

  function AfterFront(w: Work): seq<string> {
    [FormatBool(w.skipPatchTests)] + (BlobParts(w) + RunTexts(w) + PatchParts(w.patch))
  }

  lemma AroundFront(serverKey: string, requestKey: string, w: Work)
    ensures KeyParts(serverKey, requestKey, w) == [serverKey] + FrontTexts(requestKey, w) + AfterFront(w)
  {
    SplitAtTexts(serverKey, requestKey, w);
  }

  lemma FrontCollides(serverKey: string, requestKey: string, w: Work)
    returns (other: string, b: Work)
    requires !OneLineEach(FrontTexts(requestKey, w))
    ensures Comparable(w, b) && b.head.Link? && b.tooling.Link?
    ensures Join(KeyParts(serverKey, other, b)) == Join(KeyParts(serverKey, requestKey, w))
    ensures !(other == requestKey && AgreeOnKey(w, b))
  {
    var texts := FrontTexts(requestKey, w);
    var texts' := Shifted(texts);
    other, b := texts'[0], WithFront(w, texts');
    assert FrontTexts(other, b) == texts';
    AroundFront(serverKey, requestKey, w);
    AroundFront(serverKey, other, b);
    JoinAround([serverKey], texts', texts, AfterFront(w));
    AgreeingTexts(requestKey, w, other, b);
  }

  lemma RunCollides(serverKey: string, requestKey: string, w: Work) returns (b: Work)
    requires !OneLineEach(RunTexts(w))
    ensures Comparable(w, b) && b.head == w.head && b.tooling == w.tooling
    ensures Join(KeyParts(serverKey, requestKey, b)) == Join(KeyParts(serverKey, requestKey, w))
    ensures !AgreeOnKey(w, b)
  {
    var texts := RunTexts(w);
    var texts' := Shifted(texts);
    b := WithRun(w, texts');
    assert RunTexts(b) == texts';
    SplitAtTexts(serverKey, requestKey, w);
    SplitAtTexts(serverKey, requestKey, b);
    var front, back := FrontParts(serverKey, requestKey, w) + BlobParts(w), PatchParts(w.patch);
    assert KeyParts(serverKey, requestKey, w) == front + texts + back;
    assert KeyParts(serverKey, requestKey, b) == front + texts' + back;
    JoinAround(front, texts', texts, back);
    AgreeingTexts(requestKey, w, requestKey, b);
  }

  lemma AgreeingTexts(requestKey: string, a: Work, other: string, b: Work)
    ensures other == requestKey && AgreeOnKey(a, b) ==>
              FrontTexts(other, b) == FrontTexts(requestKey, a) && RunTexts(b) == RunTexts(a)
  {
  }

  lemma TextsCollide(serverKey: string, requestKey: string, w: Work) returns (other: string, b: Work)
    requires !OneLineEach(Texts(requestKey, w))
    ensures Comparable(w, b) && (w.head.Link? && w.tooling.Link? ==> b.head.Link? && b.tooling.Link?)
    ensures Join(KeyParts(serverKey, other, b)) == Join(KeyParts(serverKey, requestKey, w))
    ensures !(other == requestKey && AgreeOnKey(w, b))
  {
    var front, run := FrontTexts(requestKey, w), RunTexts(w);
    if OneLineEach(front) {
      var i :| 0 <= i < |Texts(requestKey, w)| && !OneLine(Texts(requestKey, w)[i]);
      assert run[i - |front|] == Texts(requestKey, w)[i];
      b := RunCollides(serverKey, requestKey, w);
      other := requestKey;
    } else {
      other, b := FrontCollides(serverKey, requestKey, w);
    }
  }

  // The key determines all texts of a request, among requests that differ in texts only, exactly when
  // none of them has a newline.
  lemma TextsAreDeterminedIff(digest: string -> string, serverKey: string, requestKey: string, w: Work)
    requires CollisionFree(digest)
    ensures Determined(digest, serverKey, requestKey, w) <==> OneLineEach(Texts(requestKey, w))
  {
    if OneLineEach(Texts(requestKey, w)) {
      forall other: string, b: Work | Comparable(w, b)
                                      && Key(digest, serverKey, other, b) == Key(digest, serverKey, requestKey, w)
        ensures other == requestKey && AgreeOnKey(w, b)
      {
        OneLineDetermines(digest, serverKey, requestKey, w, other, b);
      }
    } else {
      var other, b := TextsCollide(serverKey, requestKey, w);
      assert Key(digest, serverKey, other, b) == Key(digest, serverKey, requestKey, w);
    }
  }

  ghost predicate PairDetermined(front: seq<string>, x: string, y: string, back: seq<string>) {
    forall x': string, y': string :: Join(front + [x', y'] + back) == Join(front + [x, y] + back) ==> x' == x && y' == y
  }

  // Two neighbours anywhere in a joined list can be told apart exactly when neither has a newline.
  lemma PairDeterminedIff(front: seq<string>, x: string, y: string, back: seq<string>)
    ensures PairDetermined(front, x, y, back) <==> OneLine(x) && OneLine(y)
  {
    if OneLine(x) && OneLine(y) {
      forall x': string, y': string | Join(front + [x', y'] + back) == Join(front + [x, y] + back)
        ensures x' == x && y' == y
      {
        var xs, ys := front + [x, y] + back, front + [x', y'] + back;
        FitsAround(front, [x, y], [x', y'], back);
        FewestNewlines(xs, ys);
        PartsPeel(xs, ys);
        assert xs[|front|] == x && ys[|front|] == x' && xs[|front| + 1] == y && ys[|front| + 1] == y';
      }
    } else {
      assert !OneLineEach([x, y]) by {
        assert [x, y][0] == x && [x, y][1] == y;
      }
      var other := Shifted([x, y]);
      assert other == [other[0], other[1]];
      JoinAround(front, other, [x, y], back);
    }
  }

  ghost predicate FocusDetermined(digest: string -> string, serverKey: string, requestKey: string, w: Work) {
    forall f: string, p: string ::
      Key(digest, serverKey, requestKey, w.(focus := f, project := p)) == Key(digest, serverKey, requestKey, w) ==>
        f == w.focus && p == w.project
  }

  function BeforeFocus(serverKey: string, requestKey: string, w: Work): seq<string> {
    [serverKey, requestKey, Component(w.head), Component(w.tooling)] + BaseParts(w.base)
  }

  function AfterProject(w: Work): seq<string> {
    [FormatBool(w.skipPatchTests)] + TestcaseParts(w.testcase, w.architecture) + PatchParts(w.patch)
  }

  lemma FocusInTheMiddle(serverKey: string, requestKey: string, w: Work, f: string, p: string)
    ensures KeyParts(serverKey, requestKey, w.(focus := f, project := p))
         == BeforeFocus(serverKey, requestKey, w) + [f, p] + AfterProject(w)
  {
  }

  // With all else given, the key determines focus and project name exactly when neither has a newline.
  lemma FocusDeterminedIff(digest: string -> string, serverKey: string, requestKey: string, w: Work)
    requires CollisionFree(digest)
    ensures FocusDetermined(digest, serverKey, requestKey, w) <==> OneLine(w.focus) && OneLine(w.project)
  {
    var front, back := BeforeFocus(serverKey, requestKey, w), AfterProject(w);
    PairDeterminedIff(front, w.focus, w.project, back);
    FocusInTheMiddle(serverKey, requestKey, w, w.focus, w.project);
    assert w.(focus := w.focus, project := w.project) == w;
    forall f: string, p: string
      ensures Key(digest, serverKey, requestKey, w.(focus := f, project := p)) == Key(digest, serverKey, requestKey, w)
              <==> Join(front + [f, p] + back) == Join(front + [w.focus, w.project] + back)
    {
      FocusInTheMiddle(serverKey, requestKey, w, f, p);
    }
    if !PairDetermined(front, w.focus, w.project, back) {
      var f, p :| Join(front + [f, p] + back) == Join(front + [w.focus, w.project] + back)
                  && !(f == w.focus && p == w.project);
      assert Key(digest, serverKey, requestKey, w.(focus := f, project := p)) == Key(digest, serverKey, requestKey, w);
    }
  }

  // An instance, which also gives the workers different arguments.
  lemma NewlineMergesKeys(digest: string -> string, serverKey: string, requestKey: string, w: Work)
    requires w.Valid()
    ensures var a, b := w.(focus := "x\ny", project := "z"), w.(focus := "x", project := "y\nz");
            Key(digest, serverKey, requestKey, a) == Key(digest, serverKey, requestKey, b) && !SameArguments(a, b)
  {
    var a, b := w.(focus := "x\ny", project := "z"), w.(focus := "x", project := "y\nz");
    FocusInTheMiddle(serverKey, requestKey, w, "x\ny", "z");
    FocusInTheMiddle(serverKey, requestKey, w, "x", "y\nz");
    JoinPair("x\ny", "z");
    JoinPair("x", "y\nz");
    assert "x\ny" + NEWLINE + "z" == "x" + NEWLINE + "y\nz";
    JoinAround(BeforeFocus(serverKey, requestKey, w), ["x\ny", "z"], ["x", "y\nz"], AfterProject(w));
    FocusArgument(a);
    FocusArgument(b);
    assert |a.focus| != |b.focus|;
  }

  lemma FocusArgument(w: Work)
    requires w.Valid()
    ensures |Arguments(Contents(w))| > 5 && Arguments(Contents(w))[5] == Text(w.focus)
  {
  }
}
