/** Callers of `Validate` on concrete settings and pods, showing what its
    contract lets a client conclude. */
module Scenarios {
  import opened Wrappers
  import opened Regex
  import opened PolicySettings
  import opened Validation

  function CostCenterSettings(): Settings
  {
    Settings({"foo", "bar"}, map["cost-center" := Pattern("cc-\\d+")])
  }

  /** A matching cost centre is admitted. */
  method MatchingCostCenter(re: Engine) returns (v: Verdict)
    requires re.matches("cc-\\d+", "cc-42")
    ensures v == Accept
  {
    var labels := [Label("cost-center", "cc-42")];
    assert KeysOf(labels) == {"cost-center"};
    v := Validate(re, Success(CostCenterSettings()), labels);
  }

  /** A cost centre that does not match is rejected, without a code. */
  method NonMatchingCostCenter(re: Engine) returns (v: Verdict)
    requires !re.matches("cc-\\d+", "cc-abc")
    ensures v == Reject(ConstraintMessage("cost-center"), None)
  {
    var labels := [Label("cost-center", "cc-abc")];
    assert ScanLabels(re, CostCenterSettings(), labels) == Some(ConstraintMessage("cost-center"));
    v := Validate(re, Success(CostCenterSettings()), labels);
  }

  /** A denied label is rejected whatever its value. */
  method DeniedFoo(re: Engine, value: string) returns (v: Verdict)
    ensures v == Reject(DeniedMessage("foo"), None)
  {
    var s := Settings({"foo"}, map[]);
    var labels := [Label("foo", value)];
    assert ScanLabels(re, s, labels) == Some(DeniedMessage("foo"));
    v := Validate(re, Success(s), labels);
  }

  /** A pod without labels misses the one constrained key, which is then the
      one reported. */
  method MissingTeam(re: Engine) returns (v: Verdict)
    ensures v == Reject(NotFoundMessage("team"), None)
  {
    var s := Settings({}, map["team" := Pattern(".*")]);
    assert KeysOf([]) == {};
    assert "team" in s.constrainedLabels.Keys;
    v := Validate(re, Success(s), []);
    assert s.constrainedLabels.Keys == {"team"};
  }

  /** Settings that could not be built reject the request with code 400 and
      the construction error as message. */
  method BrokenSettings(re: Engine, error: string, labels: seq<Label>) returns (v: Verdict)
    ensures v == Reject(error, Some(400))
  {
    v := Validate(re, Failure(error), labels);
  }
}
