# oVirt VM import validation engine, modelled in Dafny

This project models the validation/classification engine of the oVirt provider of the
VM import operator (`pkg/providers/ovirt/validation/vm-import-validation.go`). An import
request names a source oVirt VM together with its network, storage and disk mappings.
The engine runs the domain validators over that VM and classifies each failure by the
static rule catalog `checkToAction` into one of three actions: `log`, `warn` or `block`.
It accumulates the warn-tier and block-tier messages with `utils.WithMessage` and
returns exactly two status conditions. The first is `Valid`, about the mappings. The
second is `MappingRulesVerified`, about the rules.

Modules, one per component:

- `Catalog` (`catalog.dfy`): the check identifiers, the three actions with their
  codes 0/1/2, and `checkToAction`. The table is a total function returning an `Option`
  (`None` for an identifier with no key). `ActionOf` is the Go map lookup, so a
  missing key yields the zero value `log`.
- `Classifier` (`classifier.dfy`): `processFailures` as a loop method (`ProcessFailures`).
  It is proved against two definitions. `Accumulate` is a recursive left fold of one
  `switch` step. `WarnMessage`/`ErrorMessage` are the bucket-first reading: filter the
  failures by action, then fold `WithMessage` from `""` over their messages. The
  classifier reads the catalog through an `actionOf` parameter, which the orchestrator
  sets to `Catalog.ActionOf`.
- `Conditions` (`conditions.dfy`): the condition record built by `conditions.NewCondition`
  and the two builders. Error beats warning, and warning beats success.
- `Orchestrator` (`orchestrator.dfy`): the `Validator` interface as a record of
  functions, the VM with its optional NIC and disk-attachment lists, and
  `validateMappings` and `Validate` as methods that grow their failure and result
  sequences in the source's order.
- `Wrappers` (`wrappers.dfy`): `Option`.

The model follows the code in two places:

- An identifier missing from `checkToAction` is `log` (Go's zero value for a missing
  map key), so it is dropped from both messages.
- Messages are joined by `utils.WithMessage`, whatever that function does. The model
  assumes no fixed separator.

## Model

| member | source | states |
|---|---|---|
| `Catalog.Code` | pkg/providers/ovirt/validation/vm-import-validation.go:24-27 | the action codes are 0, 1, 2, and code 0 (the zero value) is exactly `log` |
| `Catalog.ActionOf` | pkg/providers/ovirt/validation/vm-import-validation.go:38-110 | a missing key gives the zero value, code 0, which is `log`; so does any unlisted ID; every network-mapping ID and every storage-mapping ID except `StorageTargetDefaultClass` give `block`; `StorageTargetDefaultClass` gives `warn`; both SCSI-reservation IDs give `block` |
| `Catalog.CheckToAction` | pkg/providers/ovirt/validation/vm-import-validation.go:38-110 | the table, read as a partial map, has an entry for every listed identifier and for no unlisted one |
| `Classifier.Step` | pkg/providers/ovirt/validation/vm-import-validation.go:195-202 | one `switch` step changes only the accumulator of the failure's tier, by joining its message with `WithMessage`; a log-tier failure changes neither |
| `Classifier.Accumulate` | pkg/providers/ovirt/validation/vm-import-validation.go:193-204 | the `for` loop as a left fold of the step; a run with no warn-tier failure leaves the warn accumulator as it was, and a run with no block-tier failure leaves the error accumulator as it was |
| `Classifier.Bucket` | pkg/providers/ovirt/validation/vm-import-validation.go:195-202 | a bucket holds only input failures whose action is that bucket's action |
| `Classifier.ProcessFailures` | pkg/providers/ovirt/validation/vm-import-validation.go:192-205 | the loop returns the fold of `WithMessage` from `""` over the messages of the warn-tier failures, and the same fold over the block-tier failures, in input order; the failures sent to the logger are exactly the log-tier ones, in order |
| `Classifier.AccumulateIsBucketFold` | pkg/providers/ovirt/validation/vm-import-validation.go:193-204 | from any pair of starting strings, the step-by-step loop equals filtering by action and folding each tier's messages separately |
| `Classifier.ProcessFailuresIsBucketFold` | pkg/providers/ovirt/validation/vm-import-validation.go:192-205 | started from two empty strings, the loop yields `WarnMessage` and `ErrorMessage` |
| `Classifier.AccumulateConcat` | pkg/providers/ovirt/validation/vm-import-validation.go:194-203 | running over `xs + ys` is running over `xs`, then over `ys` from where it stopped |
| `Classifier.LogFailureIsInvisible` | pkg/providers/ovirt/validation/vm-import-validation.go:195-197 | inserting a log-tier failure anywhere leaves both returned strings unchanged |
| `Classifier.BucketsPartition` | pkg/providers/ovirt/validation/vm-import-validation.go:195-202 | the log, warn and block buckets together are the input as a multiset, so each failure goes to exactly one |
| `Classifier.NoBlockNoError` | pkg/providers/ovirt/validation/vm-import-validation.go:200-201 | with no block-tier failure the error message is `""` |
| `Classifier.NoWarnNoWarning` | pkg/providers/ovirt/validation/vm-import-validation.go:198-199 | with no warn-tier failure the warn message is `""` |
| `Classifier.BlockMakesError` | pkg/providers/ovirt/validation/vm-import-validation.go:200-201 | if `WithMessage` never erases, one block-tier failure with a non-empty text makes the error message non-empty |
| `Classifier.WarnMakesWarning` | pkg/providers/ovirt/validation/vm-import-validation.go:198-199 | if `WithMessage` never erases, one warn-tier failure with a non-empty text makes the warn message non-empty |
| `Classifier.MessagesOfConcatenation` | pkg/providers/ovirt/validation/vm-import-validation.go:194-203 | each message of an appended run continues the fold of the earlier run's message with the later run's same-tier messages, so VM messages come before NIC messages, which come before disk messages |
| `Conditions.MappingCondition` | pkg/providers/ovirt/validation/vm-import-validation.go:174-179 | type `Valid`; status False exactly when the error message is non-empty; the message is the error, the warning or the success text, and is never empty |
| `Conditions.RulesCondition` | pkg/providers/ovirt/validation/vm-import-validation.go:184-189 | type `MappingRulesVerified`; status False exactly when the error message is non-empty; the message is the error, the warning or the success text, and is never empty |
| `Conditions.ProcessMappingValidationFailures` | pkg/providers/ovirt/validation/vm-import-validation.go:172-180 | a non-empty block-tier fold gives False, `IncompleteMappingRules` and exactly that fold; otherwise a non-empty warn-tier fold gives True, `ValidationReportedWarnings` and that fold; otherwise True, `ValidationCompleted`, "Validation completed successfully" |
| `Conditions.ProcessValidationFailures` | pkg/providers/ovirt/validation/vm-import-validation.go:182-190 | the same precedence with `MappingRulesVerificationFailed` / `MappingRulesVerificationReportedWarnings` / `MappingRulesVerificationCompleted` and "All mapping rules checks passed" |
| `Conditions.BlockSuppressesWarnings` | pkg/providers/ovirt/validation/vm-import-validation.go:172-190 | once the error message is non-empty, each condition equals the one computed from the block-tier failures alone, so warnings are dropped |
| `Conditions.BlockedRunFails` | pkg/providers/ovirt/validation/vm-import-validation.go:172-190 | if `WithMessage` never erases, a block-tier failure with a text makes both conditions False |
| `Conditions.UnblockedRunPasses` | pkg/providers/ovirt/validation/vm-import-validation.go:172-190 | without block-tier failures both conditions are True |
| `Conditions.LogOnlyRunSucceeds` | pkg/providers/ovirt/validation/vm-import-validation.go:172-190 | when every failure is log-tier, both conditions are the fixed success conditions, however many failures there are |
| `Conditions.SingleWarningReported` | pkg/providers/ovirt/validation/vm-import-validation.go:176-177 | a run whose one failure is warn-tier gives True, `ValidationReportedWarnings` and `WithMessage("", text)` |
| `Conditions.DefaultStorageClassOnlyWarns` | pkg/providers/ovirt/validation/vm-import-validation.go:107-109 | under the source's catalog, a lone `StorageTargetDefaultClass` failure gives a True mapping condition with the warnings reason |
| `Orchestrator.MappingFailures` | pkg/providers/ovirt/validation/vm-import-validation.go:158-167 | exactly the network-mapping failures (only when NICs are present) followed by the storage-mapping failures (only when attachments are present), nothing else and nothing between; with neither, there are none |
| `Orchestrator.RuleFailures` | pkg/providers/ovirt/validation/vm-import-validation.go:144-151 | exactly the VM-level failures, then the NIC failures (only when NICs are present), then the disk-attachment failures (only when attachments are present); the length equation leaves nothing else in between or after |
| `Orchestrator.ValidateMappings` | pkg/providers/ovirt/validation/vm-import-validation.go:157-170 | returns a `Valid` condition computed from the network-mapping failures (only when NICs are present) followed by the storage-mapping failures (only when attachments are present) |
| `Orchestrator.Validate` | pkg/providers/ovirt/validation/vm-import-validation.go:139-155 | always exactly two conditions: first the `Valid` mapping condition, then the `MappingRulesVerified` condition over the VM, then NIC (if present), then disk-attachment (if present) failures |
| `Orchestrator.AbsentCollectionsAreSkipped` | pkg/providers/ovirt/validation/vm-import-validation.go:144-167 | without NICs the NIC and network-mapping validators are never consulted, and without attachments the disk and storage-mapping validators are not; a VM with neither has no mapping failures and only its VM-level failures as rule failures |
| `Orchestrator.BareVmSucceeds` | pkg/providers/ovirt/validation/vm-import-validation.go:139-155 | a VM with no NICs and no attachments whose VM-level failures are all log-tier gets the two success conditions |
| `Orchestrator.ScsiReservationFailsRules` | pkg/providers/ovirt/validation/vm-import-validation.go:144-152 | a disk-attachment failure for either SCSI-reservation check (attachment-level or disk-level) makes the rules condition False with `MappingRulesVerificationFailed` and the block-tier fold as its message |
| `Orchestrator.MultiplePodTargetsFailMapping` | pkg/providers/ovirt/validation/vm-import-validation.go:157-170 | a network-mapping failure for multiple pod-network targets makes the mapping condition False with `IncompleteMappingRules` |

## Left out

- `logger.Info`: the log transport is not modelled. The failures it would receive are returned in the ghost out-parameter `logged` of `ProcessFailures`.
- `utils.WithMessage` is not part of this model. It is a parameter of type `(string, string) -> string`, and lemmas that need a non-empty result assume `NonErasing`: a non-empty accumulator or message never joins to `""`.
- The bodies of the domain validators (`validators` package) are not part of this model. Each `Validator` method is a function field with no properties assumed.
- `ValidateDiskStatus` is declared in the interface but not called by the modelled code. It is only carried as a field.
- The oVirt SDK types (`Vm` attributes, `Nic`, `DiskAttachment`), the mapping items and `TemplateFinder` are opaque types and are only passed through.
- `conditions.NewCondition` is modelled as a four-field record. Other fields it may set, such as timestamps, are not modelled.
- The reason constants are an enumeration, not their string values from the API package.
- Nil pointers for `mappings`, `vmiCrName` or `finder` are not modelled. In Go, a nil `mappings` panics once NICs or attachments are present. A nil `vmiCrName` panics only once NICs are present, where its `Namespace` is read at line 162; in the log line at line 197 it prints as `<nil>`.
- `NewVirtualMachineImportValidator` is the constructor of the `VirtualMachineImportValidator` datatype.
- Repeated runs giving identical output is not stated as a lemma. In the model it holds because the validators and `utils.WithMessage` are functions, so identical inputs give identical failures and messages. In Go it also needs `ValidateVM`, which reads the `TemplateFinder`, and the other validators to answer the same way on repeated calls; their code is not part of this model.
- The end-to-end test `tests/basic_vm_import_test.go` and the generated REST client `v2v_client.go` are I/O and plumbing, and are not modelled.
