/** The policy's settings: a deny-list of label keys and a map from label key
    to a regular expression that the label's value must match.

    Parsing compiles every constraint and fails as a whole on the first
    pattern that does not compile; validation then rejects settings in which
    a key is both denied and constrained. Both are stated here as they are
    fixed by settings_test.go. Wherever the source walks a Go map (whose
    iteration order is unspecified) the model picks keys with `:|`, which
    leaves the order open. */
module PolicySettings {
  import opened Wrappers
  import opened Regex

  const InvalidSettingsPrefix := "Provided settings are not valid: "
  const ConflictPrefix := "These labels cannot be constrained and denied at the same time: "

  /** A compiled regular expression; `source` is what Go's `String()` returns. */
  datatype Pattern = Pattern(source: string)

  /** The decoded settings document, before any pattern is compiled. */
  datatype RawSettings = RawSettings(deniedLabels: seq<string>, constrainedLabels: map<string, string>)

  /** The settings the policy evaluates against. */
  datatype Settings = Settings(deniedLabels: set<string>, constrainedLabels: map<string, Pattern>)

  /** What the settings-validation entry point answers. */
  datatype ValidationResponse = ValidationResponse(valid: bool, message: Option<string>)

  predicate Matches(re: Engine, p: Pattern, value: string)
  {
    re.matches(p.source, value)
  }

  ghost predicate AllCompile(re: Engine, raw: map<string, string>)
  {
    forall k :: k in raw ==> re.compiles(raw[k])
  }

  /** Every constraint of `s` holds a pattern the engine compiled. */
  ghost predicate PatternsCompile(re: Engine, s: Settings)
  {
    forall k :: k in s.constrainedLabels ==> re.compiles(s.constrainedLabels[k].source)
  }

  /** Compiles each constraint in map-iteration order and stops at the first
      pattern that does not compile, returning the compiler's own text. */
  ghost function CompileConstraints(re: Engine, raw: map<string, string>): (r: Result<map<string, Pattern>, string>)
    ensures r.Success? <==> AllCompile(re, raw)
    ensures r.Success? ==> r.value.Keys == raw.Keys
    ensures r.Success? ==> forall k :: k in raw ==> r.value[k] == Pattern(raw[k])
    ensures r.Failure? ==> exists k :: k in raw && !re.compiles(raw[k]) && r.error == re.compileError(raw[k])
    decreases raw.Keys
  {
    if raw.Keys == {} then Success(map[])
    else
      var k :| k in raw.Keys;
      if !re.compiles(raw[k]) then Failure(re.compileError(raw[k]))
      else
        var rest := raw - {k};
        assert rest.Keys < raw.Keys;
        assert AllCompile(re, raw) <==> AllCompile(re, rest) by {
          assert forall j :: j in raw ==> j == k || j in rest;
        }
        match CompileConstraints(re, rest)
        case Failure(e) => Failure(e)
        case Success(c) => Success(c[k := Pattern(raw[k])])
  }

  /** Decoding a settings document: the deny-list becomes a set, every
      constraint is compiled, and one pattern that does not compile makes
      the whole document fail with the compiler's error text. */
  ghost function ParseSettings(re: Engine, raw: RawSettings): (r: Result<Settings, string>)
    ensures r.Success? <==> AllCompile(re, raw.constrainedLabels)
    ensures r.Success? ==> forall l :: l in raw.deniedLabels <==> l in r.value.deniedLabels
    ensures r.Success? ==> r.value.constrainedLabels.Keys == raw.constrainedLabels.Keys
    ensures r.Success? ==> forall k :: k in raw.constrainedLabels ==> r.value.constrainedLabels[k].source == raw.constrainedLabels[k]
    ensures r.Success? ==> PatternsCompile(re, r.value)
    ensures r.Failure? ==> exists k :: k in raw.constrainedLabels && !re.compiles(raw.constrainedLabels[k])
                                       && r.error == re.compileError(raw.constrainedLabels[k])
  {
    match CompileConstraints(re, raw.constrainedLabels)
    case Failure(e) => Failure(e)
    case Success(c) => Success(Settings(DeniedSet(raw), c))
  }

  /** The deny-list as a set: duplicates collapse, order is forgotten. */
  function DeniedSet(raw: RawSettings): set<string>
  {
    set l | l in raw.deniedLabels
  }

  /** The keys that are both denied and constrained. */
  function Conflicts(s: Settings): set<string>
  {
    s.constrainedLabels.Keys * s.deniedLabels
  }

  /** Some enumeration of `keys`; which one is left open, as the order in
      which the set library walks its elements is unspecified. */
  ghost function Enumerate(keys: set<string>): (r: seq<string>)
    ensures |r| == |keys|
    ensures forall x :: x in r <==> x in keys
    decreases keys
  {
    if keys == {} then []
    else
      var x :| x in keys;
      [x] + Enumerate(keys - {x})
  }

  function Join(parts: seq<string>, sep: string): string
  {
    if |parts| == 0 then ""
    else if |parts| == 1 then parts[0]
    else parts[0] + sep + Join(parts[1..], sep)
  }

  /** The set library's rendering: `Set{a, b, ...}`. */
  ghost function SetString(keys: set<string>): string
  {
    "Set{" + Join(Enumerate(keys), ", ") + "}"
  }

  ghost function ConflictMessage(conflicts: set<string>): string
  {
    ConflictPrefix + SetString(conflicts)
  }

  /** The settings-validation entry point: parse, then look for keys that are
      both denied and constrained. Invalidity is reported in the response,
      never as an error of the call itself. */
  ghost function ValidateSettings(re: Engine, raw: RawSettings): (r: ValidationResponse)
    ensures r.valid <==> AllCompile(re, raw.constrainedLabels)
                         && DeniedSet(raw) !! raw.constrainedLabels.Keys
    ensures r.valid <==> r.message.None?
    ensures !AllCompile(re, raw.constrainedLabels) ==>
              exists k :: k in raw.constrainedLabels && !re.compiles(raw.constrainedLabels[k])
                          && r.message == Some(InvalidSettingsPrefix + re.compileError(raw.constrainedLabels[k]))
    ensures AllCompile(re, raw.constrainedLabels) && !r.valid ==>
              r.message == Some(InvalidSettingsPrefix
                                + ConflictMessage(DeniedSet(raw) * raw.constrainedLabels.Keys))
  {
    match ParseSettings(re, raw)
    case Failure(e) => ValidationResponse(false, Some(InvalidSettingsPrefix + e))
    case Success(s) =>
      assert s.deniedLabels == DeniedSet(raw);
      assert Conflicts(s) == DeniedSet(raw) * raw.constrainedLabels.Keys;
      if Conflicts(s) == {} then
        assert DeniedSet(raw) !! raw.constrainedLabels.Keys by {
          forall k | k in raw.constrainedLabels ensures k !in DeniedSet(raw) {
            assert k !in Conflicts(s);
          }
        }
        ValidationResponse(true, None)
      else ValidationResponse(false, Some(InvalidSettingsPrefix + ConflictMessage(Conflicts(s))))
  }

  /** With exactly one conflicting key the message names that key alone. */
  lemma SingleConflictMessage(k: string)
    ensures ConflictMessage({k}) == ConflictPrefix + "Set{" + k + "}"
  {
    var e := Enumerate({k});
    assert k in e;
    assert e == [k];
  }

  /** When the only constraint does not compile, the message is the prefix
      followed by the compiler's error text, verbatim. */
  lemma SingleBrokenPatternMessage(re: Engine, denied: seq<string>, key: string, pattern: string)
    requires !re.compiles(pattern)
    ensures ValidateSettings(re, RawSettings(denied, map[key := pattern]))
            == ValidationResponse(false, Some(InvalidSettingsPrefix + re.compileError(pattern)))
  {
    var raw := RawSettings(denied, map[key := pattern]);
    assert !AllCompile(re, raw.constrainedLabels) by {
      assert key in raw.constrainedLabels;
    }
  }

  /** Keys both denied and constrained make otherwise valid settings
      invalid, and the message lists them. */
  lemma ConflictingSettingsRejected(re: Engine, raw: RawSettings, k: string)
    requires AllCompile(re, raw.constrainedLabels)
    requires k in raw.deniedLabels && k in raw.constrainedLabels
    ensures !ValidateSettings(re, raw).valid
    ensures ValidateSettings(re, raw).message
            == Some(InvalidSettingsPrefix + ConflictMessage(DeniedSet(raw) * raw.constrainedLabels.Keys))
  {
    assert k in DeniedSet(raw) * raw.constrainedLabels.Keys;
  }

  /** `TestParseValidSettings`: both listed keys are denied and the
      constraint keeps its source text. */
  lemma ParseValidSettingsExample(re: Engine)
    requires re.compiles("cc-\\d+")
    ensures var r := ParseSettings(re, RawSettings(["foo", "bar"], map["cost-center" := "cc-\\d+"]));
            r.Success? && "foo" in r.value.deniedLabels && "bar" in r.value.deniedLabels
            && "cost-center" in r.value.constrainedLabels
            && r.value.constrainedLabels["cost-center"].source == "cc-\\d+"
  {
    var raw := RawSettings(["foo", "bar"], map["cost-center" := "cc-\\d+"]);
    assert AllCompile(re, raw.constrainedLabels);
    assert "foo" in raw.deniedLabels && "bar" in raw.deniedLabels;
  }

  /** `TestParseSettingsWithInvalidRegexp`: decoding fails. */
  lemma ParseInvalidRegexpExample(re: Engine)
    requires !re.compiles("cc-[a+")
    ensures ParseSettings(re, RawSettings(["foo", "bar"], map["cost-center" := "cc-[a+"])).Failure?
  {
    var raw := RawSettings(["foo", "bar"], map["cost-center" := "cc-[a+"]);
    assert "cost-center" in raw.constrainedLabels;
  }

  /** `TestDetectValidSettings`. */
  lemma DetectValidSettingsExample(re: Engine)
    requires re.compiles("cc-\\d+")
    ensures ValidateSettings(re, RawSettings(["foo", "bar"], map["cost-center" := "cc-\\d+"]))
            == ValidationResponse(true, None)
  {
    var raw := RawSettings(["foo", "bar"], map["cost-center" := "cc-\\d+"]);
    assert AllCompile(re, raw.constrainedLabels);
    assert DeniedSet(raw) == {"foo", "bar"};
  }

  /** `TestDetectNotValidSettingsDueToBrokenRegexp`. */
  lemma DetectBrokenRegexpExample(re: Engine)
    requires !re.compiles("cc-[a+")
    requires re.compileError("cc-[a+") == "error parsing regexp: missing closing ]: `[a+`"
    ensures ValidateSettings(re, RawSettings(["foo", "bar"], map["cost-center" := "cc-[a+"]))
            == ValidationResponse(false, Some(InvalidSettingsPrefix + "error parsing regexp: missing closing ]: `[a+`"))
  {
    SingleBrokenPatternMessage(re, ["foo", "bar"], "cost-center", "cc-[a+");
  }

  /** When exactly one key is both denied and constrained, the message
      names that key alone. */
  lemma SingleConflictValidation(re: Engine, raw: RawSettings, k: string)
    requires AllCompile(re, raw.constrainedLabels)
    requires DeniedSet(raw) * raw.constrainedLabels.Keys == {k}
    ensures ValidateSettings(re, raw)
            == ValidationResponse(false, Some(InvalidSettingsPrefix + ConflictPrefix + "Set{" + k + "}"))
  {
    assert k in raw.deniedLabels by { assert k in DeniedSet(raw); }
    var r := ValidateSettings(re, raw);
    ConflictingSettingsRejected(re, raw, k);
    assert r.message == Some(InvalidSettingsPrefix + ConflictMessage({k}));
    SingleConflictMessage(k);
    var text := ConflictPrefix + "Set{" + k + "}";
    assert r.message == Some(InvalidSettingsPrefix + text);
    assert InvalidSettingsPrefix + text == InvalidSettingsPrefix + ConflictPrefix + "Set{" + k + "}";
  }

  /** `TestDetectNotValidSettingsDueToConflictingLabels`. */
  lemma DetectConflictingLabelsExample(re: Engine)
    requires re.compiles(".*")
    ensures ValidateSettings(re, RawSettings(["foo", "bar", "cost-center"], map["cost-center" := ".*"]))
            == ValidationResponse(false, Some(InvalidSettingsPrefix + ConflictPrefix + "Set{" + "cost-center" + "}"))
  {
    var raw := RawSettings(["foo", "bar", "cost-center"], map["cost-center" := ".*"]);
    assert AllCompile(re, raw.constrainedLabels);
    assert DeniedSet(raw) == {"foo", "bar", "cost-center"};
    assert raw.constrainedLabels.Keys == {"cost-center"};
    SingleConflictValidation(re, raw, "cost-center");
  }
}
