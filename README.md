# Label-policy admission engine, modelled in Dafny

A Kubewarden policy that decides whether a Pod may be admitted, judging only
its `metadata.labels`. Its settings are a deny-list of label keys and a map
from label key to a regular expression.

- A label whose key is on the deny-list rejects the Pod.
- A constrained label whose value does not match its expression rejects the Pod.
- A constrained key that the Pod does not carry at all rejects the Pod.

The settings are validated on their own as well. Every expression must
compile, and no key may be both denied and constrained.

The project has five modules:

- `Wrappers` (`wrappers.dfy`): `Option` and `Result`.
- `Regex` (`regex.dfy`): the regular-expression library as a parameter. It is a
  value `Engine` with three functions: `compiles`, `compileError` (the
  compiler's error text) and `matches` (an unanchored search). Nothing about
  regular expressions is assumed beyond these.
- `PolicySettings` (`settings.dfy`): decoding and validating the settings.
  `Settings` holds the deny-list as a `set<string>` and the constraints as a
  `map` to compiled `Pattern`s. A `Pattern` keeps its source text, which Go's
  `String()` returns. The Go file that holds this code is not part of this
  model. Its behaviour is taken from what `settings_test.go` asserts.
- `Validation` (`validate.dfy`): `ValidateLabel`, a function, and `Validate`,
  a method with the source's two loops. The first loop walks the labels,
  records each visited key and stops at the first failing label. The second
  loop checks that every constrained key was visited.
- `Scenarios` (`scenarios.dfy`): clients of `Validate` on concrete Pods.

Go walks its maps in an unspecified order. Two things depend on that order:
which missing constrained key is reported, and which broken pattern is
reported. The model leaves both open. The method `Validate` picks the missing
key with `:|`. The ghost functions `CompileConstraints` and `Enumerate` pick
an element with `:|`. The contracts then say only that the reported key is
SOME key with the stated property.

The pod's labels are a `seq<Label>` of key/value pairs, in the order the
document lists them. That is the order in which the source visits them.

## Model

| member | source | states |
|---|---|---|
| `PolicySettings.CompileConstraints` | settings_test.go:45-58 | compilation succeeds exactly when every pattern compiles; on success every key keeps its pattern verbatim; on failure the error is the compiler's text for some pattern that does not compile |
| `PolicySettings.ParseSettings` | settings_test.go:11-58 | decoding fails exactly when some pattern does not compile, and then carries that pattern's compiler text; on success every listed key is denied (and no other), the constrained keys are the written ones, each pattern's source is kept verbatim, and every stored pattern compiles |
| `PolicySettings.ValidateSettings` | settings_test.go:60-138 | the settings are valid exactly when every pattern compiles and no key is both denied and constrained; a message is present exactly when they are invalid; a broken pattern gives the prefix plus that pattern's compiler text; otherwise a conflict gives the prefix plus the conflict message over the overlapping keys; the answer is always a response, never an error |
| `PolicySettings.SingleConflictMessage` | settings_test.go:135 | a single conflicting key is rendered as `Set{<key>}` after the conflict prefix (the rendering is `ConflictMessage` over `SetString`) |
| `PolicySettings.Enumerate` | settings_test.go:135 | the keys listed inside `Set{...}` are exactly the set's elements, each once, in an order left open |
| `PolicySettings.SingleBrokenPatternMessage` | settings_test.go:84-111 | with one constraint whose pattern does not compile, validation answers invalid with `Provided settings are not valid: ` followed by the compiler's error text verbatim |
| `PolicySettings.ConflictingSettingsRejected` | settings_test.go:113-138 | compiling settings with a key both denied and constrained are invalid, and the message lists the overlapping keys after both prefixes |
| `PolicySettings.SingleConflictValidation` | settings_test.go:113-138 | compiling settings whose only overlap between denied and constrained keys is one key are invalid with the message `Provided settings are not valid: These labels cannot be constrained and denied at the same time: Set{<key>}` |
| `PolicySettings.ParseValidSettingsExample` | settings_test.go:11-43 | the test's settings decode; `foo` and `bar` are denied; `cost-center` is constrained by the pattern whose source is `cc-\d+` |
| `PolicySettings.ParseInvalidRegexpExample` | settings_test.go:45-58 | the test's settings with the pattern `cc-[a+` fail to decode |
| `PolicySettings.DetectValidSettingsExample` | settings_test.go:60-82 | the test's settings validate as valid, with no message |
| `PolicySettings.DetectBrokenRegexpExample` | settings_test.go:84-111 | the broken pattern gives invalid with message "Provided settings are not valid: error parsing regexp: missing closing ]: `[a+`" |
| `PolicySettings.DetectConflictingLabelsExample` | settings_test.go:113-138 | `cost-center` both denied and constrained gives invalid with message `Provided settings are not valid: These labels cannot be constrained and denied at the same time: Set{cost-center}` |
| `Validation.ValidateLabel` | validate.go:80-94 | a label passes (no error) exactly when its key is not denied and, if constrained, its value matches; an error is either the deny-list message or the constraint message for that key |
| `Validation.DeniedLabelRejected` | validate.go:81-83 | a denied key yields `Label <key> is on the deny list` whatever its value, even when the key is also constrained |
| `Validation.ConstraintViolationRejected` | validate.go:85-91 | a constrained, non-denied key whose value does not match yields `The value of <key> doesn't pass user-defined constraint` |
| `Validation.UnconstrainedLabelPasses` | validate.go:85-93 | a key neither denied nor constrained yields no error |
| `Validation.ScanLabels` | validate.go:40-57 | walking the labels reports nothing exactly when every label passes; a report is the error of some label all of whose predecessors pass |
| `Validation.ScanLabelsAppend` | validate.go:51-53 | once a prefix of the labels fails, the labels after it do not change the outcome; after a passing prefix the outcome is that of the rest |
| `Validation.ScanLabelsStep` | validate.go:45-53 | after a passing prefix, the next label's verdict is the walk's verdict for the longer prefix, and a failure there is the verdict of the whole walk |
| `Validation.KeysOfStep` | validate.go:45-46 | visiting one more label adds exactly its key to the set of visited keys |
| `Validation.AdmitsIffScan` | validate.go:61-77 | admission means the walk reports nothing and every constrained key is among the label keys |
| `Validation.Validate` | validate.go:13-78 | settings that could not be built give a rejection with their error and code 400; otherwise the first failing label's message is returned with no code; if all labels pass but a constrained key is missing, the rejection names some missing key, with no code; the Pod is accepted exactly when the settings were built, every label passes and every constrained key is present. The loop invariants keep the visited set equal to the keys of the labels walked so far |
| `Validation.DeniedKeyNeverAdmitted` | validate.go:42-65 | a Pod carrying a denied key is never admitted; if no earlier label fails, the walk reports that key's deny-list message |
| `Validation.EmptyPodNotAdmitted` | validate.go:69-75 | with some constrained key, a Pod without labels passes the walk but is not admitted |
| `Validation.CompliantPodAdmitted` | validate.go:61-77 | under settings that validate, the decoded settings have no key both denied and constrained, and a Pod that avoids the deny-list, carries every constrained key and matches every written pattern is admitted |
| `Scenarios.MatchingCostCenter` | validate.go:42-77 | `cost-center=cc-42` under the constraint `cc-\d+` is accepted |
| `Scenarios.NonMatchingCostCenter` | validate.go:61-65 | `cost-center=cc-abc` is rejected with the constraint message and no code |
| `Scenarios.DeniedFoo` | validate.go:81-83 | a `foo` label is rejected with the deny-list message, whatever its value |
| `Scenarios.MissingTeam` | validate.go:69-75 | with the single constrained key `team`, an unlabelled Pod is rejected with `Constrained label team not found inside of Pod` |
| `Scenarios.BrokenSettings` | validate.go:24-29 | settings that could not be built give their error with code 400 |

## Left out

- Decoding the request and settings JSON is not modelled. That covers the reject with code 400 when the request does not decode (validate.go:16-21) and the defaults for absent fields. The model starts from decoded values.
- Serialising the accept and reject responses is not modelled. Only the verdict value is kept.
- Extracting `metadata.labels` with gjson (validate.go:36-38) is not modelled. `Validate` receives the labels as a sequence.
- Regular-expression compilation and matching are parameters (`Regex.Engine`). Their internals are not modelled.
- The Go file that defines `Settings`, its JSON decoder, `validateSettings` and `NewSettingsFromValidationReq` is not part of this model.
- `Validation.Validate`: takes the settings-construction outcome as a parameter, so whether construction also rejects conflicting keys is not fixed.
- `PolicySettings.CompileConstraints`: when several patterns fail, the reported one is a fixed but unspecified choice. Go's map order may differ from one run to the next.
- `PolicySettings.ValidateSettings`: with several conflicting keys, the model assumes the set library renders `Set{` then the keys separated by `, ` then `}`; only the single-key case is fixed by the source (settings_test.go:135). The element order is a fixed but unspecified enumeration.
- `PolicySettings.ParseSettings`: the tests do not fix whether decoding itself rejects a key that is both denied and constrained; the model's decoding accepts it and leaves the conflict to `ValidateSettings`.
- The deny-list as a hash set is modelled as a `set<string>`. The set library's internals are not modelled.
- The generated Kubernetes API types under `vendor/` are not modelled. They are plain records with no behaviour.

## Nondeterminism

- When several constrained keys are missing from a Pod, the one reported depends on Go's map iteration order (validate.go:69-75), so it can change between runs. `Validation.Validate` leaves it open: the rejection names some missing key. Whether the Pod is accepted or rejected is fully determined (its last postcondition).
- The element order inside `Set{...}` in the conflict message is whatever the set library's iteration produces. The model leaves it open (`PolicySettings.Enumerate`).
