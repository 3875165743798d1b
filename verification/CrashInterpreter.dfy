// Classifies a harness run by configured return codes and output patterns.
module CrashInterpreter {
  import opened Types

  // A `significance` key: not there, or there with a number or null.
  datatype Significance = Absent | Given(value: Option<int>)

  // A record under a return code. An empty mapping is false in Python, any other mapping is true.
  datatype Record = Empty | Record(msg: Option<string>, significance: Significance, requireSanitizer: bool)

  datatype Pattern = Pattern(category: Option<string>, regex: Option<string>, significance: Significance)

  // A code without a key and a code with null are looked up alike.
  type Codes = map<int, Option<Record>>

  datatype Engine = Engine(name: string, codes: Codes)

  datatype Config = Config(
    engines: seq<Engine>, miscCodes: Codes, miscPatterns: seq<Pattern>, sanitizers: map<string, seq<Pattern>>)

  // One analysis: its arguments, both outputs joined, and the string functions it uses.
  datatype Run = Run(
    engine: string, sanitizer: string, returnCode: int, combined: string,
    lower: string -> string, search: (string, string) -> bool)

  datatype Message =
    | Configured(text: Option<string>) | MiscError(errorType: string) | Unhandled | SignatureDespite(crash: string)

  datatype Failure = InvalidEngine

  const UNRECOGNIZED_SIGNATURE := 213

  /* ------------------------------------------------------- first match */

  // The first position from i on where p holds, or the end.
  function FirstFrom<T>(s: seq<T>, i: nat, p: T -> bool): (k: nat)
    requires i <= |s|
    ensures i <= k <= |s| && (k < |s| ==> p(s[k])) && forall j :: i <= j < k ==> !p(s[j])
    decreases |s| - i
  {
    if i == |s| || p(s[i]) then i else FirstFrom(s, i + 1, p)
  }

  function First<T>(s: seq<T>, p: T -> bool): (found: Option<T>)
    ensures found.Some? ==> found.value in s && p(found.value)
    ensures found.None? <==> forall x :: x in s ==> !p(x)
  {
    var k := FirstFrom(s, 0, p);
    if k < |s| then Some(s[k]) else None
  }

  lemma FirstAt<T>(s: seq<T>, p: T -> bool, k: nat)
    requires k < |s| && p(s[k]) && forall j :: 0 <= j < k ==> !p(s[j])
    ensures First(s, p) == Some(s[k])
  {
  }

  lemma NoneFirst<T>(s: seq<T>, p: T -> bool)
    requires forall j :: 0 <= j < |s| ==> !p(s[j])
    ensures First(s, p) == None
  {
  }

  /* ------------------------------------------------------- the rules */

  function Lookup(codes: Codes, code: int): Option<Record> {
    if code in codes then codes[code] else None
  }

  function SignificanceOf(s: Significance): Option<int> {
    if s.Absent? then Some(1) else s.value
  }

  predicate Truthy(s: Option<string>) { s.Some? && s.value != "" }

  predicate Found(run: Run, p: Pattern) {
    Truthy(p.category) && Truthy(p.regex) && run.search(p.regex.value, run.combined)
  }

  function Matches(run: Run): Pattern -> bool { (p: Pattern) => Found(run, p) }

  predicate Named(run: Run, e: Engine) { run.lower(e.name) == run.lower(run.engine) }

  // The entry is for this engine, has a record for the code that is not empty, and its sanitizer demand is met.
  function Decides(run: Run, found: Option<string>): Engine -> bool {
    (e: Engine) =>
      Named(run, e) && Lookup(e.codes, run.returnCode).Some? && Lookup(e.codes, run.returnCode).value.Record?
      && (Lookup(e.codes, run.returnCode).value.requireSanitizer ==> found.Some?)
  }

  function Detected(config: Config, run: Run): Option<string> {
    if run.sanitizer !in config.sanitizers then None
    else
      match First(config.sanitizers[run.sanitizer], Matches(run))
      case None => None
      case Some(p) => p.category
  }

  function Misc(config: Config, run: Run): (Option<Message>, Option<int>) {
    var record := Lookup(config.miscCodes, run.returnCode);
    if record.Some? && record.value.Record? then
      (if record.value.msg.Some? then Some(Configured(record.value.msg)) else None,
       SignificanceOf(record.value.significance))
    else
      match First(config.miscPatterns, Matches(run))
      case None => (None, None)
      case Some(p) =>
        assert Found(run, p);
        (Some(MiscError(p.category.value)), SignificanceOf(p.significance))
  }

  // The entry for this engine that comes last.
  function LastNamed(run: Run, engines: seq<Engine>): Option<Engine> {
    if engines == [] then None
    else if Named(run, engines[|engines| - 1]) then Some(engines[|engines| - 1])
    else LastNamed(run, engines[..|engines| - 1])
  }

  // An empty record in the engine's last entry is neither used nor counted as missing.
  predicate Silenced(config: Config, run: Run) {
    var last := LastNamed(run, config.engines);
    last.Some? && Lookup(last.value.codes, run.returnCode) == Some(Empty)
  }

  function MiscOrUnhandled(config: Config, run: Run): (Message, Option<int>) {
    var (msg, sig) := Misc(config, run);
    (if msg.Some? then msg.value else Unhandled, sig)
  }

  function Interpreted(config: Config, run: Run, found: Option<string>): Result<(Message, Option<int>), Failure> {
    if LastNamed(run, config.engines).None? then Error(InvalidEngine)
    else
      match First(config.engines, Decides(run, found))
      case Some(e) =>
        var record := Lookup(e.codes, run.returnCode).value;
        Ok((Configured(record.msg), SignificanceOf(record.significance)))
      case None => if Silenced(config, run) then Ok((Unhandled, None)) else Ok(MiscOrUnhandled(config, run))
  }

  function Analysis(config: Config, run: Run): Result<(Message, int), Failure> {
    var found := Detected(config, run);
    match Interpreted(config, run, found)
    case Error(e) => Error(e)
    case Ok((msg, sig)) =>
      if sig.Some? then Ok((msg, sig.value))
      else if found.Some? then Ok((SignatureDespite(found.value), UNRECOGNIZED_SIGNATURE))
      else Ok((msg, 0))
  }

  /* ------------------------------------------------------- the script's loops */

  method DetermineMisc(config: Config, run: Run) returns (msg: Option<Message>, sig: Option<int>)
    ensures (msg, sig) == Misc(config, run)
  {
    var result := Lookup(config.miscCodes, run.returnCode);
    if result.Some? && result.value != Empty {
      msg := if result.value.msg.Some? then Some(Configured(result.value.msg)) else None;
      return msg, SignificanceOf(result.value.significance);
    }
    var i := 0;
    while i < |config.miscPatterns|
      invariant 0 <= i <= |config.miscPatterns|
      invariant forall j :: 0 <= j < i ==> !Matches(run)(config.miscPatterns[j])
    {
      var item := config.miscPatterns[i];
      if Truthy(item.category) && Truthy(item.regex) && run.search(item.regex.value, run.combined) {
        FirstAt(config.miscPatterns, Matches(run), i);
        return Some(MiscError(item.category.value)), SignificanceOf(item.significance);
      }
      i := i + 1;
    }
    NoneFirst(config.miscPatterns, Matches(run));
    return None, None;
  }

  method DetectSanitizerCrash(config: Config, run: Run) returns (found: Option<string>)
    ensures found == Detected(config, run)
  {
    var patterns := if run.sanitizer in config.sanitizers then config.sanitizers[run.sanitizer] else [];
    var i := 0;
    while i < |patterns|
      invariant 0 <= i <= |patterns|
      invariant forall j :: 0 <= j < i ==> !Matches(run)(patterns[j])
    {
      var item := patterns[i];
      if Truthy(item.category) && Truthy(item.regex) && run.search(item.regex.value, run.combined) {
        FirstAt(patterns, Matches(run), i);
        return item.category;
      }
      i := i + 1;
    }
    NoneFirst(patterns, Matches(run));
    return None;
  }

  lemma LastNamedStep(run: Run, engines: seq<Engine>, i: nat)
    requires i < |engines|
    ensures LastNamed(run, engines[..i + 1])
         == if Named(run, engines[i]) then Some(engines[i]) else LastNamed(run, engines[..i])
  {
    assert engines[..i + 1][..i] == engines[..i];
  }

  method HasEngine(config: Config, run: Run) returns (known: bool)
    ensures known <==> LastNamed(run, config.engines).Some?
  {
    known := false;
    var i := 0;
    while i < |config.engines|
      invariant 0 <= i <= |config.engines|
      invariant known <==> LastNamed(run, config.engines[..i]).Some?
    {
      known := known || Named(run, config.engines[i]);
      LastNamedStep(run, config.engines, i);
      i := i + 1;
    }
    assert config.engines[..|config.engines|] == config.engines;
  }

  // The loop over the engines: the deciding record, or else what is left in `result`.
  method ScanEngines(config: Config, run: Run, found: Option<string>)
    returns (decided: Option<Record>, result: Option<Record>)
    ensures decided == match First(config.engines, Decides(run, found))
                       case None => None
                       case Some(e) => Lookup(e.codes, run.returnCode)
    ensures decided.None? ==> result.None? || result == Some(Empty)
    ensures decided.None? ==> (result == Some(Empty) <==> Silenced(config, run))
  {
    decided, result := None, None;
    var i := 0;
    while i < |config.engines|
      invariant 0 <= i <= |config.engines|
      invariant forall j :: 0 <= j < i ==> !Decides(run, found)(config.engines[j])
      invariant var last := LastNamed(run, config.engines[..i]);
                result == Some(Empty) <==> last.Some? && Lookup(last.value.codes, run.returnCode) == Some(Empty)
      invariant result.None? || result == Some(Empty)
    {
      var e := config.engines[i];
      LastNamedStep(run, config.engines, i);
      if run.lower(e.name) == run.lower(run.engine) {
        result := Lookup(e.codes, run.returnCode);
        if result.Some? && result.value != Empty {
          if result.value.requireSanitizer && found.None? {
            result := None;
          } else {
            FirstAt(config.engines, Decides(run, found), i);
            decided := result;
            return;
          }
        }
      }
      i := i + 1;
    }
    NoneFirst(config.engines, Decides(run, found));
    assert config.engines[..|config.engines|] == config.engines;
  }

  method InterpretReturnCode(config: Config, run: Run, found: Option<string>)
    returns (r: Result<(Message, Option<int>), Failure>)
    ensures r == Interpreted(config, run, found)
  {
    var known := HasEngine(config, run);
    if !known {
      return Error(InvalidEngine);
    }
    var decided, result := ScanEngines(config, run, found);
    if decided.Some? {
      return Ok((Configured(decided.value.msg), SignificanceOf(decided.value.significance)));
    }
    var resultMsg: Option<Message>, sig: Option<int> := None, None;
    if result.None? {
      resultMsg, sig := DetermineMisc(config, run);
    }
    if resultMsg.None? {
      resultMsg := Some(Unhandled);
    }
    return Ok((resultMsg.value, sig));
  }

  method RunAnalysis(config: Config, run: Run) returns (r: Result<(Message, int), Failure>)
    ensures r == Analysis(config, run)
  {
    var found := DetectSanitizerCrash(config, run);
    var interpreted := InterpretReturnCode(config, run, found);
    if interpreted.Error? {
      return Error(interpreted.error);
    }
    var (codeLabel, sig) := interpreted.value;
    if sig.Some? {
      return Ok((codeLabel, sig.value));
    }
    if found.Some? {
      return Ok((SignatureDespite(found.value), UNRECOGNIZED_SIGNATURE));
    }
    return Ok((codeLabel, 0));
  }

  /* ------------------------------------------------------- what the rules mean */

  // No record decides: not the engine's, not a misc code, not a misc pattern.
  predicate Unconfigured(config: Config, run: Run, found: Option<string>) {
    && First(config.engines, Decides(run, found)).None?
    && (Silenced(config, run) || Misc(config, run).1.None?)
  }

  predicate SanitizerMatches(config: Config, run: Run) {
    run.sanitizer in config.sanitizers && exists p :: p in config.sanitizers[run.sanitizer] && Found(run, p)
  }

  // With nothing configured, or with null as its significance, the code is 213 iff a sanitizer pattern matches, else 0.
  lemma DefaultVerdict(config: Config, run: Run)
    requires LastNamed(run, config.engines).Some? && Unconfigured(config, run, Detected(config, run))
    ensures Analysis(config, run).Ok?
    ensures Analysis(config, run).value.1 == if SanitizerMatches(config, run) then 213 else 0
  {
    DetectedMeaning(config, run);
  }

  lemma DetectedMeaning(config: Config, run: Run)
    ensures Detected(config, run).Some? <==> SanitizerMatches(config, run)
  {
    if run.sanitizer in config.sanitizers {
      var patterns := config.sanitizers[run.sanitizer];
      var first := First(patterns, Matches(run));
      if first.Some? {
        assert first.value in patterns && Found(run, first.value);
      } else {
        forall p | p in patterns ensures !Found(run, p) {
          assert !Matches(run)(p);
        }
      }
    }
  }

  // The analysis fails exactly when no entry has the engine's name.
  lemma {:induction false} EngineIsKnown(run: Run, engines: seq<Engine>)
    ensures LastNamed(run, engines).Some? <==> exists e :: e in engines && Named(run, e)
    ensures LastNamed(run, engines).Some? ==>
              Named(run, LastNamed(run, engines).value) && LastNamed(run, engines).value in engines
    decreases |engines|
  {
    if engines != [] {
      var rest, last := engines[..|engines| - 1], engines[|engines| - 1];
      EngineIsKnown(run, rest);
      assert engines == rest + [last];
    }
  }

  // Names of engines are compared in lower case: another spelling of the same gives the same analysis.
  lemma {:induction false} SpellingDoesNotMatter(config: Config, run: Run, engine: string)
    requires run.lower(engine) == run.lower(run.engine)
    ensures Analysis(config, run.(engine := engine)) == Analysis(config, run)
  {
    var other := run.(engine := engine);
    var found := Detected(config, run);
    SameFirst(config.sanitizers, run, other);
    assert Detected(config, other) == found;
    SameDecider(config.engines, run, other, found);
    SameLast(config.engines, run, other);
    SameMisc(config, run, other);
  }

  lemma SameFirstOf<T>(s: seq<T>, p: T -> bool, q: T -> bool)
    requires forall i :: 0 <= i < |s| ==> p(s[i]) == q(s[i])
    ensures First(s, p) == First(s, q)
  {
    var k := FirstFrom(s, 0, p);
    if k < |s| {
      FirstAt(s, q, k);
    } else {
      NoneFirst(s, q);
    }
  }

  lemma SameFirst(sanitizers: map<string, seq<Pattern>>, run: Run, other: Run)
    requires other == run.(engine := other.engine)
    ensures run.sanitizer in sanitizers ==>
              First(sanitizers[run.sanitizer], Matches(other)) == First(sanitizers[run.sanitizer], Matches(run))
  {
    if run.sanitizer in sanitizers {
      SameFirstOf(sanitizers[run.sanitizer], Matches(other), Matches(run));
    }
  }

  lemma SameDecider(engines: seq<Engine>, run: Run, other: Run, found: Option<string>)
    requires other == run.(engine := other.engine) && run.lower(other.engine) == run.lower(run.engine)
    ensures First(engines, Decides(other, found)) == First(engines, Decides(run, found))
  {
    SameFirstOf(engines, Decides(other, found), Decides(run, found));
  }

  lemma {:induction false} SameLast(engines: seq<Engine>, run: Run, other: Run)
    requires other == run.(engine := other.engine) && run.lower(other.engine) == run.lower(run.engine)
    ensures LastNamed(other, engines) == LastNamed(run, engines)
    decreases |engines|
  {
    if engines != [] {
      SameLast(engines[..|engines| - 1], run, other);
    }
  }

  lemma SameMisc(config: Config, run: Run, other: Run)
    requires other == run.(engine := other.engine)
    ensures Misc(config, other) == Misc(config, run)
  {
    SameFirstOf(config.miscPatterns, Matches(other), Matches(run));
  }

  // The crash that is named is the category of the first pattern of the sanitizer that is found.
  lemma DetectedIsFirst(config: Config, run: Run, k: nat)
    requires run.sanitizer in config.sanitizers && k < |config.sanitizers[run.sanitizer]|
    requires Found(run, config.sanitizers[run.sanitizer][k])
    requires forall j :: 0 <= j < k ==> !Found(run, config.sanitizers[run.sanitizer][j])
    ensures Detected(config, run) == config.sanitizers[run.sanitizer][k].category
  {
    FirstAt(config.sanitizers[run.sanitizer], Matches(run), k);
  }

  // Entries of other engines do not matter, wherever they stand.
  lemma OtherEnginesDoNotMatter(config: Config, run: Run, before: seq<Engine>, other: Engine, after: seq<Engine>)
    requires config.engines == before + [other] + after && !Named(run, other)
    ensures Analysis(config, run) == Analysis(config.(engines := before + after), run)
  {
    var p := Decides(run, Detected(config, run));
    FirstSkips(before, other, after, p);
    LastSkips(run, before, other, after);
  }

  lemma FirstSkips<T>(before: seq<T>, x: T, after: seq<T>, p: T -> bool)
    requires !p(x)
    ensures First(before + [x] + after, p) == First(before + after, p)
  {
    var s, t := before + [x] + after, before + after;
    var k := FirstFrom(t, 0, p);
    if k == |t| {
      forall j | 0 <= j < |s| ensures !p(s[j]) {
        assert s[j] == if j < |before| then t[j] else if j == |before| then x else t[j - 1];
      }
      NoneFirst(s, p);
    } else if k < |before| {
      forall j | 0 <= j <= k ensures s[j] == t[j] {
      }
      FirstAt(s, p, k);
    } else {
      forall j | 0 <= j < k + 1 ensures !p(s[j]) {
        assert s[j] == if j < |before| then t[j] else if j == |before| then x else t[j - 1];
      }
      assert s[k + 1] == t[k];
      FirstAt(s, p, k + 1);
    }
  }

  lemma {:induction false} LastSkips(run: Run, before: seq<Engine>, other: Engine, after: seq<Engine>)
    requires !Named(run, other)
    ensures LastNamed(run, before + [other] + after) == LastNamed(run, before + after)
    decreases |after|
  {
    if after == [] {
      assert (before + [other] + after)[..|before|] == before;
      assert before + after == before;
    } else {
      var rest := after[..|after| - 1];
      LastSkips(run, before, other, rest);
      assert (before + [other] + after)[..|before| + |after|] == before + [other] + rest;
      assert (before + after)[..|before| + |after| - 1] == before + rest;
    }
  }

  // The exit code a significance stands for: 1 if it is left out, its number, and for null what the sanitizer says.
  predicate CodeFor(s: Significance, config: Config, run: Run, code: int) {
    match s
    case Absent => code == 1
    case Given(Some(n)) => code == n
    case Given(None) => code == if SanitizerMatches(config, run) then 213 else 0
  }

  // The first deciding entry's record gives the exit code.
  lemma DecidedVerdict(config: Config, run: Run)
    requires LastNamed(run, config.engines).Some? && First(config.engines, Decides(run, Detected(config, run))).Some?
    ensures var e := First(config.engines, Decides(run, Detected(config, run))).value;
            run.returnCode in e.codes && e.codes[run.returnCode].Some? && e.codes[run.returnCode].value.Record?
            && Analysis(config, run).Ok?
            && CodeFor(e.codes[run.returnCode].value.significance, config, run, Analysis(config, run).value.1)
            && (e.codes[run.returnCode].value.significance != Given(None) || !SanitizerMatches(config, run) ==>
                  Analysis(config, run).value.0 == Configured(e.codes[run.returnCode].value.msg))
  {
    DetectedMeaning(config, run);
  }

  // Otherwise the misc section does: a record for the code, or else the first pattern found in the output.
  lemma MiscVerdict(config: Config, run: Run, significance: Significance)
    requires LastNamed(run, config.engines).Some? && !Silenced(config, run)
    requires First(config.engines, Decides(run, Detected(config, run))).None?
    requires if run.returnCode in config.miscCodes && config.miscCodes[run.returnCode].Some?
                && config.miscCodes[run.returnCode].value.Record?
             then significance == config.miscCodes[run.returnCode].value.significance
             else exists k :: 0 <= k < |config.miscPatterns| && Found(run, config.miscPatterns[k])
                              && significance == config.miscPatterns[k].significance
                              && forall j :: 0 <= j < k ==> !Found(run, config.miscPatterns[j])
    ensures Analysis(config, run).Ok? && CodeFor(significance, config, run, Analysis(config, run).value.1)
  {
    DetectedMeaning(config, run);
    if k :| 0 <= k < |config.miscPatterns| && Found(run, config.miscPatterns[k])
            && significance == config.miscPatterns[k].significance
            && forall j :: 0 <= j < k ==> !Found(run, config.miscPatterns[j])
    {
      FirstAt(config.miscPatterns, Matches(run), k);
    }
  }

  // A pattern counts iff it has a category and an expression, neither empty, that is found in the output.
  lemma FoundMeans(run: Run, category: string, regex: string, s: Significance)
    ensures Found(run, Pattern(Some(category), Some(regex), s)) <==>
              |category| > 0 && |regex| > 0 && run.search(regex, run.combined)
    ensures !Found(run, Pattern(None, Some(regex), s)) && !Found(run, Pattern(Some(category), None, s))
  {
  }

  // A record that demands a sanitizer never decides when no sanitizer pattern matches.
  lemma DemandIsMet(config: Config, run: Run)
    requires First(config.engines, Decides(run, Detected(config, run))).Some?
    ensures var e := First(config.engines, Decides(run, Detected(config, run))).value;
            Lookup(e.codes, run.returnCode).value.requireSanitizer ==> SanitizerMatches(config, run)
  {
    DetectedMeaning(config, run);
  }

  // The rules as they read: the engine's records, else the misc section.
  function AsItReads(config: Config, run: Run, found: Option<string>): (Message, Option<int>) {
    match First(config.engines, Decides(run, found))
    case Some(e) =>
      var record := Lookup(e.codes, run.returnCode).value;
      (Configured(record.msg), SignificanceOf(record.significance))
    case None => MiscOrUnhandled(config, run)
  }

  // An empty record in the engine's last entry hides the misc section; the rules are as they read exactly when
  // something decides before, there is no such record, or the misc section says nothing anyway.
  lemma EmptyRecordHidesMisc(config: Config, run: Run, found: Option<string>)
    requires LastNamed(run, config.engines).Some?
    ensures Interpreted(config, run, found) == Ok(AsItReads(config, run, found)) <==>
              First(config.engines, Decides(run, found)).Some? || !Silenced(config, run)
              || Misc(config, run) == (None, None)
  {
    var (msg, sig) := Misc(config, run);
    if msg.None? && sig.None? {
      assert Misc(config, run) == (None, None);
    }
  }

  // An instance: code 7 is configured as a misc error with code 212, and the run is reported as nothing.
  lemma EmptyRecordExample(run: Run)
    requires run.engine == "libfuzzer" && run.returnCode == 7
    ensures var silent := Engine("libfuzzer", map[7 := Some(Empty)]);
            var config := Config([silent], map[7 := Some(Record(Some("timeout"), Given(Some(212)), false))], [], map[]);
            Analysis(config, run) == Ok((Unhandled, 0))
            && Analysis(config.(engines := [silent.(codes := map[])]), run) == Ok((Configured(Some("timeout")), 212))
  {
    var silent := Engine("libfuzzer", map[7 := Some(Empty)]);
    var config := Config([silent], map[7 := Some(Record(Some("timeout"), Given(Some(212)), false))], [], map[]);
    NoneFirst([silent], Decides(run, None));
    NoneFirst([silent.(codes := map[])], Decides(run, None));
    assert Named(run, silent);
  }
}
