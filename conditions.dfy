/**
 * The condition aggregator: `processMappingValidationFailures` and
 * `processValidationFailures`, which turn the two accumulated messages into one
 * status condition each, error before warning before success.
 */
module Conditions {

  import opened Catalog
  import opened Classifier

  /** The two condition types this engine emits (`v2vv1.Valid`, `v2vv1.MappingRulesVerified`). */
  datatype ConditionType = Valid | MappingRulesVerified

  /** The condition reasons of the `v2vv1` API package that this engine uses. */
  datatype Reason =
    | IncompleteMappingRules
    | ValidationReportedWarnings
    | ValidationCompleted
    | MappingRulesVerificationFailed
    | MappingRulesVerificationReportedWarnings
    | MappingRulesVerificationCompleted

  /** `v1.ConditionTrue` and `v1.ConditionFalse`. */
  datatype ConditionStatus = ConditionTrue | ConditionFalse

  /** A `VirtualMachineImportCondition` as built by `conditions.NewCondition(type, reason, message, status)`. */
  datatype Condition = Condition(conditionType: ConditionType, reason: Reason, message: string, status: ConditionStatus)

  // The reasons of the mapping condition.
  const IncompleteMappingRulesReason := IncompleteMappingRules
  const ValidationReportedWarningsReason := ValidationReportedWarnings
  const ValidationCompletedReason := ValidationCompleted
  // The reasons of the rules condition.
  const ErrorReason := MappingRulesVerificationFailed
  const WarnReason := MappingRulesVerificationReportedWarnings
  const OkReason := MappingRulesVerificationCompleted

  const MappingSuccessMessage := "Validation completed successfully"
  const RulesSuccessMessage := "All mapping rules checks passed"

  /** The branch of `processMappingValidationFailures` on the two accumulated messages. */
  function MappingCondition(acc: Accumulated): (c: Condition)
    ensures c.conditionType == Valid
    ensures c.status == ConditionFalse <==> acc.errorMessage != ""
    ensures c.message != "" && (c.message == acc.errorMessage || c.message == acc.warnMessage || c.message == MappingSuccessMessage)
  {
    if acc.errorMessage != "" then
      Condition(Valid, IncompleteMappingRulesReason, acc.errorMessage, ConditionFalse)
    else if acc.warnMessage != "" then
      Condition(Valid, ValidationReportedWarningsReason, acc.warnMessage, ConditionTrue)
    else
      Condition(Valid, ValidationCompletedReason, MappingSuccessMessage, ConditionTrue)
  }

  /** The branch of `processValidationFailures` on the two accumulated messages. */
  function RulesCondition(acc: Accumulated): (c: Condition)
    ensures c.conditionType == MappingRulesVerified
    ensures c.status == ConditionFalse <==> acc.errorMessage != ""
    ensures c.message != "" && (c.message == acc.errorMessage || c.message == acc.warnMessage || c.message == RulesSuccessMessage)
  {
    if acc.errorMessage != "" then
      Condition(MappingRulesVerified, ErrorReason, acc.errorMessage, ConditionFalse)
    else if acc.warnMessage != "" then
      Condition(MappingRulesVerified, WarnReason, acc.warnMessage, ConditionTrue)
    else
      Condition(MappingRulesVerified, OkReason, RulesSuccessMessage, ConditionTrue)
  }

  /**
   * `processMappingValidationFailures`, stated over the buckets: the block-tier
   * messages win outright (warnings dropped), else the warn-tier messages, else success.
   */
  function ProcessMappingValidationFailures(actionOf: ActionLookup, withMessage: Joiner, failures: seq<ValidationFailure>): (c: Condition)
    ensures ErrorMessage(actionOf, withMessage, failures) != "" ==>
      c == Condition(Valid, IncompleteMappingRules, ErrorMessage(actionOf, withMessage, failures), ConditionFalse)
    ensures ErrorMessage(actionOf, withMessage, failures) == "" && WarnMessage(actionOf, withMessage, failures) != "" ==>
      c == Condition(Valid, ValidationReportedWarnings, WarnMessage(actionOf, withMessage, failures), ConditionTrue)
    ensures ErrorMessage(actionOf, withMessage, failures) == "" && WarnMessage(actionOf, withMessage, failures) == "" ==>
      c == Condition(Valid, ValidationCompleted, "Validation completed successfully", ConditionTrue)
  {
    ProcessFailuresIsBucketFold(actionOf, withMessage, failures);
    MappingCondition(Accumulate(actionOf, withMessage, Empty, failures))
  }

  /** `processValidationFailures`, stated over the buckets with the rules condition's reasons. */
  function ProcessValidationFailures(actionOf: ActionLookup, withMessage: Joiner, failures: seq<ValidationFailure>): (c: Condition)
    ensures ErrorMessage(actionOf, withMessage, failures) != "" ==>
      c == Condition(MappingRulesVerified, MappingRulesVerificationFailed, ErrorMessage(actionOf, withMessage, failures), ConditionFalse)
    ensures ErrorMessage(actionOf, withMessage, failures) == "" && WarnMessage(actionOf, withMessage, failures) != "" ==>
      c == Condition(MappingRulesVerified, MappingRulesVerificationReportedWarnings, WarnMessage(actionOf, withMessage, failures), ConditionTrue)
    ensures ErrorMessage(actionOf, withMessage, failures) == "" && WarnMessage(actionOf, withMessage, failures) == "" ==>
      c == Condition(MappingRulesVerified, MappingRulesVerificationCompleted, "All mapping rules checks passed", ConditionTrue)
  {
    ProcessFailuresIsBucketFold(actionOf, withMessage, failures);
    RulesCondition(Accumulate(actionOf, withMessage, Empty, failures))
  }

  lemma {:induction false} BucketIdempotent(actionOf: ActionLookup, failures: seq<ValidationFailure>, a: Action)
    ensures Bucket(actionOf, Bucket(actionOf, failures, a), a) == Bucket(actionOf, failures, a)
    decreases |failures|
  {
    if failures != [] {
      BucketIdempotent(actionOf, failures[1..], a);
      if actionOf(failures[0].id) == a {
        var b := Bucket(actionOf, failures[1..], a);
        assert ([failures[0]] + b)[1..] == b;
      }
    }
  }

  /**
   * Block beats warn: once the error message is non-empty, both conditions are
   * exactly what the block-tier failures alone would give, so no warn-tier or
   * log-tier failure of the run can show in them.
   */
  lemma BlockSuppressesWarnings(actionOf: ActionLookup, withMessage: Joiner, failures: seq<ValidationFailure>)
    requires ErrorMessage(actionOf, withMessage, failures) != ""
    ensures ProcessMappingValidationFailures(actionOf, withMessage, failures)
         == ProcessMappingValidationFailures(actionOf, withMessage, Bucket(actionOf, failures, Block))
    ensures ProcessValidationFailures(actionOf, withMessage, failures)
         == ProcessValidationFailures(actionOf, withMessage, Bucket(actionOf, failures, Block))
  {
    BucketIdempotent(actionOf, failures, Block);
  }

  /** With a joiner that erases nothing, a block-tier failure with a text makes both conditions False. */
  lemma BlockedRunFails(actionOf: ActionLookup, withMessage: Joiner, failures: seq<ValidationFailure>, i: nat)
    requires NonErasing(withMessage)
    requires i < |failures| && actionOf(failures[i].id) == Block && failures[i].message != ""
    ensures ProcessMappingValidationFailures(actionOf, withMessage, failures).status == ConditionFalse
    ensures ProcessValidationFailures(actionOf, withMessage, failures).status == ConditionFalse
  {
    BlockMakesError(actionOf, withMessage, failures, i);
  }

  /** Without block-tier failures both conditions are True, whatever else failed. */
  lemma UnblockedRunPasses(actionOf: ActionLookup, withMessage: Joiner, failures: seq<ValidationFailure>)
    requires forall i :: 0 <= i < |failures| ==> actionOf(failures[i].id) != Block
    ensures ProcessMappingValidationFailures(actionOf, withMessage, failures).status == ConditionTrue
    ensures ProcessValidationFailures(actionOf, withMessage, failures).status == ConditionTrue
  {
    NoBlockNoError(actionOf, withMessage, failures);
  }

  /** Log-tier failures alone, however many, give the two success conditions. */
  lemma LogOnlyRunSucceeds(actionOf: ActionLookup, withMessage: Joiner, failures: seq<ValidationFailure>)
    requires forall i :: 0 <= i < |failures| ==> actionOf(failures[i].id) == Log
    ensures ProcessMappingValidationFailures(actionOf, withMessage, failures)
         == Condition(Valid, ValidationCompleted, "Validation completed successfully", ConditionTrue)
    ensures ProcessValidationFailures(actionOf, withMessage, failures)
         == Condition(MappingRulesVerified, MappingRulesVerificationCompleted, "All mapping rules checks passed", ConditionTrue)
  {
    NoBlockNoError(actionOf, withMessage, failures);
    NoWarnNoWarning(actionOf, withMessage, failures);
  }

  /** A run whose only failure is warn-tier reports that failure's text as a warning. */
  lemma SingleWarningReported(actionOf: ActionLookup, withMessage: Joiner, f: ValidationFailure)
    requires actionOf(f.id) == Warn && withMessage("", f.message) != ""
    ensures ProcessMappingValidationFailures(actionOf, withMessage, [f])
         == Condition(Valid, ValidationReportedWarnings, withMessage("", f.message), ConditionTrue)
  {
    assert Bucket(actionOf, [f], Block) == [];
    assert Bucket(actionOf, [f], Warn) == [f];
    assert MessagesOf([f]) == [f.message];
    assert FoldMessages(withMessage, "", [f.message]) == FoldMessages(withMessage, withMessage("", f.message), [f.message][1..]);
    assert [f.message][1..] == [];
    assert WarnMessage(actionOf, withMessage, [f]) == withMessage("", f.message);
  }

  /**
   * With the catalog of the source: a storage-mapping run whose only failure is
   * a fallback to the default storage class gives a True mapping condition with
   * the warnings reason.
   */
  lemma DefaultStorageClassOnlyWarns(withMessage: Joiner, message: string)
    requires withMessage("", message) != ""
    ensures ProcessMappingValidationFailures(ActionOf, withMessage, [ValidationFailure(StorageTargetDefaultClass, message)])
         == Condition(Valid, ValidationReportedWarnings, withMessage("", message), ConditionTrue)
  {
    SingleWarningReported(ActionOf, withMessage, ValidationFailure(StorageTargetDefaultClass, message));
  }
}
