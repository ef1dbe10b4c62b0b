/** Evaluation of a pod's labels against the policy settings.

    `ValidateLabel` decides one label: the deny-list first, then the label's
    constraint if it has one. `Validate` walks the pod's labels once,
    recording every key it visits and stopping at the first label that
    fails; if none failed it checks that every constrained key was visited. */
module Validation {
  import opened Wrappers
  import opened Regex
  import opened PolicySettings

  /** One entry of the pod's `metadata.labels`, in the order the document
      lists them. */
  datatype Label = Label(key: string, value: string)

  /** The admission answer: accept, or reject with a message and an
      optional status code. */
  datatype Verdict = Accept | Reject(message: string, code: Option<int>)

  /** Code attached to a rejection caused by settings that could not be built. */
  const BadRequest := 400

  function DeniedMessage(key: string): string
  {
    "Label " + key + " is on the deny list"
  }

  function ConstraintMessage(key: string): string
  {
    "The value of " + key + " doesn't pass user-defined constraint"
  }

  function NotFoundMessage(key: string): string
  {
    "Constrained label " + key + " not found inside of Pod"
  }

  /** A label is acceptable when its key is not denied and, if the key is
      constrained, its value matches the constraint. */
  ghost predicate LabelAllowed(re: Engine, s: Settings, key: string, value: string)
  {
    key !in s.deniedLabels
    && (key in s.constrainedLabels ==> Matches(re, s.constrainedLabels[key], value))
  }

  /** The per-label check: `None` when the label passes, otherwise the
      message explaining why it does not. */
  function ValidateLabel(re: Engine, s: Settings, key: string, value: string): (r: Option<string>)
    ensures r.None? <==> LabelAllowed(re, s, key, value)
    ensures r.Some? ==> r.value == DeniedMessage(key) || r.value == ConstraintMessage(key)
  {
    if key in s.deniedLabels then
      Some(DeniedMessage(key))
    else if key in s.constrainedLabels && !Matches(re, s.constrainedLabels[key], value) then
      Some(ConstraintMessage(key))
    else
      None
  }

  /** A denied key is rejected with the deny-list message whatever its
      value, and even when the key is also constrained: the deny-list is
      consulted first. */
  lemma DeniedLabelRejected(re: Engine, s: Settings, key: string, value: string)
    requires key in s.deniedLabels
    ensures ValidateLabel(re, s, key, value) == Some(DeniedMessage(key))
  {
  }

  /** A constrained, non-denied key whose value does not match is rejected
      with the constraint message. */
  lemma ConstraintViolationRejected(re: Engine, s: Settings, key: string, value: string)
    requires key !in s.deniedLabels && key in s.constrainedLabels
    requires !Matches(re, s.constrainedLabels[key], value)
    ensures ValidateLabel(re, s, key, value) == Some(ConstraintMessage(key))
  {
  }

  /** A key that is neither denied nor constrained always passes. */
  lemma UnconstrainedLabelPasses(re: Engine, s: Settings, key: string, value: string)
    requires key !in s.deniedLabels && key !in s.constrainedLabels
    ensures ValidateLabel(re, s, key, value) == None
  {
  }

  /** The keys of `labels`. */
  function KeysOf(labels: seq<Label>): set<string>
  {
    set l | l in labels :: l.key
  }

  /** The outcome of walking `labels` in order: the first failing label's
      message, or `None` when every label passes. */
  function ScanLabels(re: Engine, s: Settings, labels: seq<Label>): (r: Option<string>)
    ensures r.None? <==> forall i :: 0 <= i < |labels| ==> LabelAllowed(re, s, labels[i].key, labels[i].value)
    ensures r.Some? ==> exists i :: 0 <= i < |labels|
                                    && r == ValidateLabel(re, s, labels[i].key, labels[i].value)
                                    && forall j :: 0 <= j < i ==> LabelAllowed(re, s, labels[j].key, labels[j].value)
  {
    if |labels| == 0 then None
    else
      match ValidateLabel(re, s, labels[0].key, labels[0].value)
      case Some(m) => Some(m)
      case None =>
        var r := ScanLabels(re, s, labels[1..]);
        assert forall i :: 1 <= i < |labels| ==> labels[i] == labels[1..][i - 1];
        r
  }

  /** The whole admission condition: every label passes and every
      constrained key occurs among the labels. */
  ghost predicate Admits(re: Engine, s: Settings, labels: seq<Label>)
  {
    (forall i :: 0 <= i < |labels| ==> LabelAllowed(re, s, labels[i].key, labels[i].value))
    && s.constrainedLabels.Keys <= KeysOf(labels)
  }

  /** Once a prefix of the labels has failed, the labels after it play no
      part in the outcome; otherwise the outcome is that of the rest. */
  lemma {:induction false} ScanLabelsAppend(re: Engine, s: Settings, front: seq<Label>, back: seq<Label>)
    ensures ScanLabels(re, s, front + back)
            == if ScanLabels(re, s, front).Some? then ScanLabels(re, s, front) else ScanLabels(re, s, back)
    decreases |front|
  {
    if |front| == 0 {
      assert front + back == back;
    } else {
      assert (front + back)[0] == front[0];
      assert (front + back)[1..] == front[1..] + back;
      ScanLabelsAppend(re, s, front[1..], back);
    }
  }

  /** One step of the walk: after a passing prefix, the next label decides
      the prefix one longer, and if it fails it decides the whole walk. */
  lemma ScanLabelsStep(re: Engine, s: Settings, labels: seq<Label>, i: nat)
    requires i < |labels| && ScanLabels(re, s, labels[..i]).None?
    ensures ScanLabels(re, s, labels[..i + 1]) == ValidateLabel(re, s, labels[i].key, labels[i].value)
    ensures ValidateLabel(re, s, labels[i].key, labels[i].value).Some? ==>
              ScanLabels(re, s, labels) == ValidateLabel(re, s, labels[i].key, labels[i].value)
  {
    assert labels[..i + 1] == labels[..i] + [labels[i]];
    ScanLabelsAppend(re, s, labels[..i], [labels[i]]);
    assert labels[..i + 1] + labels[i + 1..] == labels by {
      assert forall j :: 0 <= j < |labels| ==> (labels[..i + 1] + labels[i + 1..])[j] == labels[j];
    }
    ScanLabelsAppend(re, s, labels[..i + 1], labels[i + 1..]);
  }

  /** The keys of a prefix one longer. */
  lemma KeysOfStep(labels: seq<Label>, i: nat)
    requires i < |labels|
    ensures KeysOf(labels[..i + 1]) == KeysOf(labels[..i]) + {labels[i].key}
  {
    assert labels[..i + 1] == labels[..i] + [labels[i]];
  }

  /** `Admits` is the walk finding no failing label plus every constrained
      key being present. */
  lemma AdmitsIffScan(re: Engine, s: Settings, labels: seq<Label>)
    ensures Admits(re, s, labels)
            <==> ScanLabels(re, s, labels).None? && s.constrainedLabels.Keys <= KeysOf(labels)
  {
  }

  /** The admission decision. `settings` is the outcome of building the
      settings from the request: if that failed, the request is rejected with
      code 400 and the error's text. Otherwise the labels are walked in order,
      `visited` collecting the keys seen, until one fails; then every
      constrained key must have been seen. Which missing key is reported is
      left open, as the source walks a Go map. */
  method Validate(re: Engine, settings: Result<Settings, string>, labels: seq<Label>) returns (v: Verdict)
    ensures settings.Failure? ==> v == Reject(settings.error, Some(BadRequest))
    ensures settings.Success? && ScanLabels(re, settings.value, labels).Some? ==>
              v == Reject(ScanLabels(re, settings.value, labels).value, None)
    ensures settings.Success? && ScanLabels(re, settings.value, labels).None?
            && !(settings.value.constrainedLabels.Keys <= KeysOf(labels)) ==>
              exists k :: k in settings.value.constrainedLabels && k !in KeysOf(labels)
                          && v == Reject(NotFoundMessage(k), None)
    ensures v.Accept? <==> settings.Success? && Admits(re, settings.value, labels)
  {
    if settings.Failure? {
      return Reject(settings.error, Some(BadRequest));
    }
    var s := settings.value;

    var validationErr: Option<string> := None;
    var visited: set<string> := {};
    var i := 0;
    while i < |labels|
      invariant 0 <= i <= |labels|
      invariant visited == KeysOf(labels[..i])
      invariant ScanLabels(re, s, labels[..i]) == None
      invariant validationErr == None
    {
      var entry := labels[i];
      visited := visited + {entry.key};
      validationErr := ValidateLabel(re, s, entry.key, entry.value);
      ScanLabelsStep(re, s, labels, i);
      KeysOfStep(labels, i);
      if validationErr.Some? {
        break;
      }
      i := i + 1;
    }

    if validationErr.Some? {
      return Reject(validationErr.value, None);
    }
    assert labels[..i] == labels;

    AdmitsIffScan(re, s, labels);
    var remaining := s.constrainedLabels.Keys;
    while remaining != {}
      invariant remaining <= s.constrainedLabels.Keys
      invariant forall k :: k in s.constrainedLabels.Keys - remaining ==> k in visited
      decreases remaining
    {
      var requiredLabel :| requiredLabel in remaining;
      if requiredLabel !in visited {
        return Reject(NotFoundMessage(requiredLabel), None);
      }
      remaining := remaining - {requiredLabel};
    }
    return Accept;
  }

  /** A pod carrying a denied key is never admitted; the walk reports the
      deny-list message of the first denied key unless an earlier label
      already failed. */
  lemma DeniedKeyNeverAdmitted(re: Engine, s: Settings, labels: seq<Label>, i: nat)
    requires i < |labels| && labels[i].key in s.deniedLabels
    ensures !Admits(re, s, labels)
    ensures ScanLabels(re, s, labels[..i]).None? ==> ScanLabels(re, s, labels) == Some(DeniedMessage(labels[i].key))
  {
    assert !LabelAllowed(re, s, labels[i].key, labels[i].value);
    if ScanLabels(re, s, labels[..i]).None? {
      ScanLabelsStep(re, s, labels, i);
    }
  }

  /** With a constrained key configured, a pod without labels is rejected,
      and the walk itself finds nothing to report. */
  lemma EmptyPodNotAdmitted(re: Engine, s: Settings)
    requires |s.constrainedLabels| > 0
    ensures ScanLabels(re, s, []) == None
    ensures !Admits(re, s, [])
  {
    var k :| k in s.constrainedLabels;
    assert k !in KeysOf([]);
  }

  /** Settings accepted by validation hold no key that is both denied and
      constrained, and the patterns they carry are the ones written. A pod
      whose labels avoid the deny-list, include every constrained key and
      match each written pattern is admitted under them. */
  lemma CompliantPodAdmitted(re: Engine, raw: RawSettings, labels: seq<Label>)
    requires ValidateSettings(re, raw).valid
    requires forall i :: 0 <= i < |labels| ==> labels[i].key !in raw.deniedLabels
    requires forall i :: 0 <= i < |labels| && labels[i].key in raw.constrainedLabels ==>
               re.matches(raw.constrainedLabels[labels[i].key], labels[i].value)
    requires raw.constrainedLabels.Keys <= KeysOf(labels)
    ensures ParseSettings(re, raw).Success?
    ensures Conflicts(ParseSettings(re, raw).value) == {}
    ensures Admits(re, ParseSettings(re, raw).value, labels)
  {
    var s := ParseSettings(re, raw).value;
    assert Conflicts(s) == {} by {
      forall k | k in s.constrainedLabels ensures k !in s.deniedLabels {
        assert k in raw.constrainedLabels;
      }
    }
  }
}
