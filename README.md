# On-demand service broker: startup gate and displayable errors

This project models two pieces of decision logic of the on-demand service broker
(`package broker`) in Dafny and proves what they promise.

- **The startup compatibility gate** (`broker/startup_checks.go`). Before serving requests,
  the broker checks that the Cloud Foundry API is at least 2.57.0 (CF v238). It also checks
  that the BOSH Director supports on-demand brokers, and supports lifecycle errands when any
  plan configures them. Both API checks always run and their failures are reported together.
  Only when both pass does the broker check plan IDs: no plan ID that still has service
  instances may be missing from the configured catalogue.
- **The user/operator error split** (`broker/errors.go`). A `DisplayableError` pairs a message
  that is safe to show the Cloud Foundry user with the operator's detailed error. The module
  also builds the generic "contact your operations team" message from request context.
  Finally, it translates service-adapter errors into broker API errors so that operator detail
  never reaches the user.

Files:
- `wrappers.dfy`: `Option` (a Go value that may be nil) and `Result` (a `(value, error)` return).
- `format.dfy`: the two pieces of Go's standard library the messages use. These are the `%d`
  verb, with a reader proving the numeral round-trips, and `strings.Join`.
- `errors.dfy`: module `Errors`. Go errors are an `Error` datatype with one constructor per
  dynamic type the code distinguishes. `Plain` stands for `errors.New`/`fmt.Errorf` values and for
  any other error type the code does not distinguish, by its message; the
  service-adapter error types, the broker API sentinels and `OperationInProgressError` get
  their own constructors. A nil `error` is `None`.
- `startup_checks.dfy`: module `StartupChecks`. The `Broker` value carries what the
  startup checks read. That is the service offering (its plan IDs and whether it has lifecycle
  errands) and the answers of the remote calls, each a `Result`. It also carries the semver
  parser and the lifecycle-errand minimum major version.

Semantic-version precedence is modelled as the semver library defines it for comparison with a
release version. Numeric parts compare lexicographically, and with equal parts a pre-release
comes first, so `2.57.0-rc1` is rejected. `ComparePartsLess` and `ComparePartsEqual` prove that
the part-by-part comparison is lexicographic order. `NotLessThanMinimumIffMeets` connects it to
the written-out tuple comparison `MeetsCFMinimum`.

## Model

| member | source | states |
|---|---|---|
| `StartupChecks.RunStartupChecks` | broker/startup_checks.go:19-30 | A version-check failure is returned as it is. A count failure is returned unchanged when the versions pass. The broker starts (nil) iff both API checks pass, the count succeeded and no plan ID with instances is missing from the catalogue. |
| `StartupChecks.VerifyExistingInstancePlanIDsUnchanged` | broker/startup_checks.go:32-47 | A failure to count instances is returned unchanged. Otherwise the result is an error iff some plan ID in the count map is not configured and has count > 0. That error is the fixed "cannot change the plan_id" message, and plan IDs with count 0 are tolerated. The map is visited in arbitrary order. |
| `StartupChecks.CheckAPIVersions` | broker/startup_checks.go:49-64 | Both checks are evaluated. The result is nil iff both pass. Otherwise it is "CF API error: …" and/or "BOSH Director error: …", CF first, separated by a single space. |
| `StartupChecks.APIVersionsAcceptIffCompatible` | broker/startup_checks.go:49-99 | The combined API check passes iff the CF version was fetched, parsed and is at least 2.57.0, and the director was reached, supports ODB and supports lifecycle errands whenever the offering has them. |
| `StartupChecks.CheckCFAPIVersion` | broker/startup_checks.go:66-81 | A fetch failure gets the suffix ". ODB requires CF v238+.". An unparseable version yields the parse message containing the raw string. A parsed version passes iff it is at least 2.57.0 by semver precedence, and otherwise gets the "insufficient, ODB requires CF v238+." message. |
| `StartupChecks.NotLessThanMinimumIffMeets` | broker/startup_checks.go:76-78 | "Not `LessThan` 2.57.0" under semver precedence is the same as the explicit tuple comparison (major, minor, patch) ≥ (2, 57, 0), a pre-release of 2.57.0 counting as less. |
| `StartupChecks.ComparePartsLess` | broker/startup_checks.go:76 | The numeric-part comparison says "less" iff, after an equal prefix, the first differing part is smaller (lexicographic order). |
| `StartupChecks.ComparePartsEqual` | broker/startup_checks.go:76 | The numeric-part comparison says "equal" iff all parts are equal. |
| `StartupChecks.CheckBoshDirectorVersion` | broker/startup_checks.go:83-99 | A fetch failure gets the suffix ". ODB requires BOSH v257+.". A director without ODB support is rejected whatever the errand configuration. Beyond that, the check rejects only when the offering has lifecycle errands and the director lacks errand support, with a message naming the minimum major version. It passes iff none of these apply. |
| `Errors.NewOperationInProgressError` | broker/errors.go:27-33 | The result is an OperationInProgressError wrapping `e`, and its message is `e`'s message. |
| `Errors.NilErrorNeverOccurs` | broker/errors.go:35 | `NilError` has no user half and does not occur. |
| `Errors.Message` | broker/errors.go:27-29 | `Error()` of a Go error value: an `OperationInProgressError` reports the message of the error it embeds; a broker API sentinel has a non-empty description. |
| `Errors.DisplayableError.Occurred` | broker/errors.go:51-53 | True iff both the user half and the operator half are present. |
| `Errors.DisplayableError.ErrorForCFUser` | broker/errors.go:43-45 | Returns the stored user half unchanged. |
| `Errors.DisplayableError.Render` | broker/errors.go:47-49 | When both halves are present, `Error()` is "error: <operator>. error for user: <user>.". |
| `Errors.NewDisplayableError` | broker/errors.go:51-60 | Both halves are stored unchanged. The result occurs iff both are present. |
| `Errors.NewBoshRequestError` | broker/errors.go:62-67 | The user half is "Currently unable to <action> service instance, please try again later". The operator half is the request error unchanged. The result occurs iff that error is non-nil. |
| `Errors.GenericUserMessage` | broker/errors.go:76-90 | The message begins with `GenericErrorPrefix` and is longer than it. |
| `Errors.GenericMessageListsContext` | broker/errors.go:76-90 | The generic message is the prefix, a space, then the request details as "key: value" items separated by ", ". |
| `Errors.ContextFieldsShape` | broker/errors.go:76-90 | Those details are exactly service, service-instance-guid and broker-request-id, then a task-id iff the BOSH task ID ≠ 0 (at position 3, reading back as that ID), then an operation iff it is non-empty (always last). The list has no other entries: its length is 3 plus one for each optional detail present. Task-id always comes before operation. |
| `Errors.NewGenericError` | broker/errors.go:69-96 | The user half is the generic message built from the context alone. The operator half is exactly the input error, and the result occurs iff that error is non-nil. |
| `Errors.GenericUserHalfIgnoresOperatorError` | broker/errors.go:92-95 | The user half of a generic error is the same whatever the operator error is. |
| `Errors.AdapterToAPIError` | broker/errors.go:99-121 | nil ↦ nil, and only nil. The three binding adapter errors map to their broker API sentinels. An unknown failure with a message is returned unchanged. An unknown failure without a message, and every other error, becomes the generic user message. |
| `Errors.AdapterHidesUnrecognisedDetail` | broker/errors.go:111-120 | Any two unrecognised errors translate to the same value, so their content never reaches the user. |
| `Errors.AdapterPassesOnOnlyUnknownFailures` | broker/errors.go:104-120 | The input error is returned as it is only when it is an unknown failure with a message, or when it already equals the generic message. |
| `Format.IntDecimalRoundTrip` | broker/errors.go:85 | `%d` of any int reads back as that int, so the task-id in the message identifies the task. |

## Left out

- Remote calls: `cfClient.GetAPIVersion`, `cfClient.CountInstancesOfServiceOffering` and
  `boshClient.GetDirectorVersion` are network clients whose code is not part of this model.
  Their answers are fields of `Broker` of type `Result`.
- The semver parser (`semver.NewVersion`) is not part of this model. It is the function-typed
  field `Broker.parseSemver`. Ordering between two pre-release tags is not modelled. It is never
  needed, because the minimum 2.57.0 is a release.
- `SupportsODB` and `SupportsLifecycleErrands` are modelled as the booleans of
  `DirectorVersion`, and `HasLifecycleErrands` as a boolean of the offering.
  `Plans.FindByID` is modelled as set membership.
- `boshdirector.MinimumMajorSemverDirectorVersionForLifecycleErrands` is defined outside this
  model. Its value is the field `Broker.lifecycleErrandsMinimumMajor`.
- The brokerapi sentinel values are constructors of `Sentinel`. Their descriptions
  (`SentinelMessage`) are the texts of that library, which is not part of this model.
- The `brokercontext` getters over `context.Context` are modelled as a plain `RequestContext`
  record. The loggers are left out.
- `NewOperationInProgressError` with a nil argument is not modelled, because `Error` values are
  never nil. In Go it returns a non-nil error whose `Error()` panics, and `fmt` prints that
  error as `%!s(PANIC=…)`.
- Go errors are compared by value in the model, not by pointer identity. This is why
  `AdapterPassesOnOnlyUnknownFailures` also admits an input equal to the generic message: in Go,
  `errors.New` returns a fresh error, so that input would not come back as the same error.
- `Errors.DisplayableError.Render` states its format only when both halves are present. The nil
  case follows Go's `%!s(<nil>)` rendering but no property is stated about it.
