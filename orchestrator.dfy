/**
 * The orchestrator: `VirtualMachineImportValidator.Validate` and
 * `validateMappings`, which run the validators in a fixed order over the
 * source VM and return the mapping condition followed by the rules condition.
 */
module Orchestrator {

  import opened Wrappers
  import opened Catalog
  import opened Classifier
  import opened Conditions

  // The oVirt SDK's values and the import CR's mapping items: opaque, and only passed on.
  type VmAttributes
  type Nic
  type DiskAttachment
  type TemplateFinder
  type NetworkResourceMappingItem
  type StorageResourceMappingItem

  /**
   * An `ovirtsdk.Vm` as far as this file uses it: its NIC and disk-attachment
   * lists, each absent when the SDK getter answers `ok == false`.
   */
  datatype Vm = Vm(attributes: VmAttributes, nics: Option<seq<Nic>>, diskAttachments: Option<seq<DiskAttachment>>)

  /** `v2vv1.OvirtMappings`: three optional (nil-able) mapping lists. */
  datatype OvirtMappings = OvirtMappings(
    networkMappings: Option<seq<NetworkResourceMappingItem>>,
    storageMappings: Option<seq<StorageResourceMappingItem>>,
    diskMappings: Option<seq<StorageResourceMappingItem>>)

  /** The `Validator` interface: one function per method, none of whose bodies is part of this model. */
  datatype Validator = Validator(
    validateVM: (Vm, TemplateFinder) -> seq<ValidationFailure>,
    validateDiskStatus: DiskAttachment -> bool,
    validateDiskAttachments: seq<DiskAttachment> -> seq<ValidationFailure>,
    validateNics: seq<Nic> -> seq<ValidationFailure>,
    validateNetworkMapping: (seq<Nic>, Option<seq<NetworkResourceMappingItem>>, string) -> seq<ValidationFailure>,
    validateStorageMapping: (seq<DiskAttachment>, Option<seq<StorageResourceMappingItem>>,
                             Option<seq<StorageResourceMappingItem>>) -> seq<ValidationFailure>)

  /** `VirtualMachineImportValidator`; `NewVirtualMachineImportValidator` is its constructor. */
  datatype VirtualMachineImportValidator = VirtualMachineImportValidator(validator: Validator)

  /** The failures `validateMappings` collects: network-mapping ones (if the VM has NICs), then storage-mapping ones (if it has disk attachments). */
  function MappingFailures(v: Validator, vm: Vm, mappings: OvirtMappings, vmiCrName: NamespacedName): (r: seq<ValidationFailure>)
    ensures vm.nics.None? && vm.diskAttachments.None? ==> r == []
    ensures vm.nics.None? && vm.diskAttachments.Some? ==>
      r == v.validateStorageMapping(vm.diskAttachments.value, mappings.storageMappings, mappings.diskMappings)
    ensures vm.nics.Some? && vm.diskAttachments.None? ==>
      r == v.validateNetworkMapping(vm.nics.value, mappings.networkMappings, vmiCrName.namespace)
    ensures vm.nics.Some? && vm.diskAttachments.Some? ==>
      |r| == |v.validateNetworkMapping(vm.nics.value, mappings.networkMappings, vmiCrName.namespace)|
           + |v.validateStorageMapping(vm.diskAttachments.value, mappings.storageMappings, mappings.diskMappings)|
    ensures vm.nics.Some? ==>
      var network := v.validateNetworkMapping(vm.nics.value, mappings.networkMappings, vmiCrName.namespace);
      |network| <= |r| && r[..|network|] == network
    ensures vm.diskAttachments.Some? ==>
      var storage := v.validateStorageMapping(vm.diskAttachments.value, mappings.storageMappings, mappings.diskMappings);
      |storage| <= |r| && r[|r| - |storage|..] == storage
  {
    (if vm.nics.Some? then v.validateNetworkMapping(vm.nics.value, mappings.networkMappings, vmiCrName.namespace) else [])
    + (if vm.diskAttachments.Some? then
         v.validateStorageMapping(vm.diskAttachments.value, mappings.storageMappings, mappings.diskMappings)
       else [])
  }

  /** The failures `Validate` collects for the rules condition: VM ones, then NIC ones (if any NICs), then disk-attachment ones (if any attachments). */
  function RuleFailures(v: Validator, vm: Vm, finder: TemplateFinder): (r: seq<ValidationFailure>)
    ensures |r| == |v.validateVM(vm, finder)|
                 + (if vm.nics.Some? then |v.validateNics(vm.nics.value)| else 0)
                 + (if vm.diskAttachments.Some? then |v.validateDiskAttachments(vm.diskAttachments.value)| else 0)
    ensures r[..|v.validateVM(vm, finder)|] == v.validateVM(vm, finder)
    ensures vm.nics.None? && vm.diskAttachments.None? ==> r == v.validateVM(vm, finder)
    ensures vm.nics.Some? ==>
      var vmLevel, nicLevel := v.validateVM(vm, finder), v.validateNics(vm.nics.value);
      |vmLevel| + |nicLevel| <= |r| && r[|vmLevel|..|vmLevel| + |nicLevel|] == nicLevel
    ensures vm.nics.None? && vm.diskAttachments.Some? ==>
      r == v.validateVM(vm, finder) + v.validateDiskAttachments(vm.diskAttachments.value)
    ensures vm.diskAttachments.Some? ==>
      var diskLevel := v.validateDiskAttachments(vm.diskAttachments.value);
      |diskLevel| <= |r| && r[|r| - |diskLevel|..] == diskLevel
  {
    v.validateVM(vm, finder)
    + (if vm.nics.Some? then v.validateNics(vm.nics.value) else [])
    + (if vm.diskAttachments.Some? then v.validateDiskAttachments(vm.diskAttachments.value) else [])
  }

  /** `validateMappings`. */
  method ValidateMappings(importer: VirtualMachineImportValidator, withMessage: Joiner, vm: Vm,
                          mappings: OvirtMappings, vmiCrName: NamespacedName)
    returns (condition: Condition)
    ensures condition.conditionType == Valid
    ensures condition == ProcessMappingValidationFailures(ActionOf, withMessage,
                           MappingFailures(importer.validator, vm, mappings, vmiCrName))
  {
    var failures: seq<ValidationFailure> := [];
    if vm.nics.Some? {
      var nSlice := vm.nics.value;
      failures := failures + importer.validator.validateNetworkMapping(nSlice, mappings.networkMappings, vmiCrName.namespace);
    }
    if vm.diskAttachments.Some? {
      var das := vm.diskAttachments.value;
      failures := failures + importer.validator.validateStorageMapping(das, mappings.storageMappings, mappings.diskMappings);
    }
    assert failures == MappingFailures(importer.validator, vm, mappings, vmiCrName);
    var warnMessage, errorMessage, logged := ProcessFailures(ActionOf, withMessage, failures, vmiCrName);
    ProcessFailuresIsBucketFold(ActionOf, withMessage, failures);
    condition := MappingCondition(Accumulated(warnMessage, errorMessage));
  }

  /** `Validate`: always two conditions, the mapping one first and the rules one second. */
  method Validate(importer: VirtualMachineImportValidator, withMessage: Joiner, vm: Vm, vmiCrName: NamespacedName,
                  mappings: OvirtMappings, finder: TemplateFinder)
    returns (validationResults: seq<Condition>)
    ensures |validationResults| == 2
    ensures validationResults[0].conditionType == Valid
    ensures validationResults[1].conditionType == MappingRulesVerified
    ensures validationResults[0] == ProcessMappingValidationFailures(ActionOf, withMessage,
                                      MappingFailures(importer.validator, vm, mappings, vmiCrName))
    ensures validationResults[1] == ProcessValidationFailures(ActionOf, withMessage,
                                      RuleFailures(importer.validator, vm, finder))
  {
    validationResults := [];
    var mappingsCheckResult := ValidateMappings(importer, withMessage, vm, mappings, vmiCrName);
    validationResults := validationResults + [mappingsCheckResult];

    var failures := importer.validator.validateVM(vm, finder);
    if vm.nics.Some? {
      failures := failures + importer.validator.validateNics(vm.nics.value);
    }
    if vm.diskAttachments.Some? {
      failures := failures + importer.validator.validateDiskAttachments(vm.diskAttachments.value);
    }
    assert failures == RuleFailures(importer.validator, vm, finder);
    var warnMessage, errorMessage, logged := ProcessFailures(ActionOf, withMessage, failures, vmiCrName);
    ProcessFailuresIsBucketFold(ActionOf, withMessage, failures);
    var rulesCheckResult := RulesCondition(Accumulated(warnMessage, errorMessage));
    validationResults := validationResults + [rulesCheckResult];
  }

  /**
   * An absent collection contributes no failures: without NICs the NIC and
   * network-mapping validators are never consulted, and without disk attachments
   * the disk-attachment and storage-mapping validators are not either.
   */
  lemma AbsentCollectionsAreSkipped(v: Validator, vm: Vm, mappings: OvirtMappings, vmiCrName: NamespacedName,
                                    finder: TemplateFinder, other: Validator)
    ensures vm.nics.None? && vm.diskAttachments.None? ==>
      MappingFailures(v, vm, mappings, vmiCrName) == [] && RuleFailures(v, vm, finder) == v.validateVM(vm, finder)
    ensures vm.nics.None? && other.validateStorageMapping == v.validateStorageMapping ==>
      MappingFailures(other, vm, mappings, vmiCrName) == MappingFailures(v, vm, mappings, vmiCrName)
    ensures vm.nics.None? && other.validateVM == v.validateVM && other.validateDiskAttachments == v.validateDiskAttachments ==>
      RuleFailures(other, vm, finder) == RuleFailures(v, vm, finder)
    ensures vm.diskAttachments.None? && other.validateNetworkMapping == v.validateNetworkMapping ==>
      MappingFailures(other, vm, mappings, vmiCrName) == MappingFailures(v, vm, mappings, vmiCrName)
    ensures vm.diskAttachments.None? && other.validateVM == v.validateVM && other.validateNics == v.validateNics ==>
      RuleFailures(other, vm, finder) == RuleFailures(v, vm, finder)
  {
    if vm.nics.None? && vm.diskAttachments.None? {
      assert v.validateVM(vm, finder) + [] + [] == v.validateVM(vm, finder);
    }
  }

  /**
   * A VM with neither NICs nor disk attachments, whose VM-level checks report at
   * most log-tier failures, passes with the two success conditions.
   */
  lemma BareVmSucceeds(v: Validator, withMessage: Joiner, vm: Vm, mappings: OvirtMappings,
                       vmiCrName: NamespacedName, finder: TemplateFinder)
    requires vm.nics.None? && vm.diskAttachments.None?
    requires forall f :: f in v.validateVM(vm, finder) ==> ActionOf(f.id) == Log
    ensures ProcessMappingValidationFailures(ActionOf, withMessage, MappingFailures(v, vm, mappings, vmiCrName))
         == Condition(Valid, ValidationCompleted, "Validation completed successfully", ConditionTrue)
    ensures ProcessValidationFailures(ActionOf, withMessage, RuleFailures(v, vm, finder))
         == Condition(MappingRulesVerified, MappingRulesVerificationCompleted, "All mapping rules checks passed", ConditionTrue)
  {
    var failures := RuleFailures(v, vm, finder);
    assert failures == v.validateVM(vm, finder) + [] + [];
    assert forall i :: 0 <= i < |failures| ==> ActionOf(failures[i].id) == Log by {
      forall i | 0 <= i < |failures| ensures ActionOf(failures[i].id) == Log {
        assert failures[i] in v.validateVM(vm, finder);
      }
    }
    LogOnlyRunSucceeds(ActionOf, withMessage, failures);
    LogOnlyRunSucceeds(ActionOf, withMessage, MappingFailures(v, vm, mappings, vmiCrName));
  }

  /**
   * A disk attachment, or its disk, that uses SCSI reservation fails the rules condition: it
   * is False with the error reason, and its message is the block-tier fold, so
   * no warn-tier VM or NIC failure shows in it.
   */
  lemma ScsiReservationFailsRules(v: Validator, withMessage: Joiner, vm: Vm, finder: TemplateFinder, i: nat)
    requires NonErasing(withMessage)
    requires vm.diskAttachments.Some?
    requires i < |v.validateDiskAttachments(vm.diskAttachments.value)|
    requires v.validateDiskAttachments(vm.diskAttachments.value)[i].id in {DiskAttachmentUsesScsiReservationID, DiskUsesScsiReservationID}
    requires v.validateDiskAttachments(vm.diskAttachments.value)[i].message != ""
    ensures ProcessValidationFailures(ActionOf, withMessage, RuleFailures(v, vm, finder))
         == Condition(MappingRulesVerified, MappingRulesVerificationFailed,
                      ErrorMessage(ActionOf, withMessage, RuleFailures(v, vm, finder)), ConditionFalse)
  {
    var disks := v.validateDiskAttachments(vm.diskAttachments.value);
    var prefix := v.validateVM(vm, finder) + (if vm.nics.Some? then v.validateNics(vm.nics.value) else []);
    var failures := RuleFailures(v, vm, finder);
    assert failures == prefix + disks;
    assert failures[|prefix| + i] == disks[i];
    BlockMakesError(ActionOf, withMessage, failures, |prefix| + i);
  }

  /**
   * Two NICs mapped to the pod network fail the mapping condition: once the
   * network-mapping validator reports the multiple-pod-targets check, the
   * mapping condition is False with the incomplete-mapping-rules reason.
   */
  lemma MultiplePodTargetsFailMapping(v: Validator, withMessage: Joiner, vm: Vm, mappings: OvirtMappings,
                                      vmiCrName: NamespacedName, i: nat)
    requires NonErasing(withMessage)
    requires vm.nics.Some?
    requires i < |v.validateNetworkMapping(vm.nics.value, mappings.networkMappings, vmiCrName.namespace)|
    requires v.validateNetworkMapping(vm.nics.value, mappings.networkMappings, vmiCrName.namespace)[i].id
             == NetworkMultiplePodTargetsID
    requires v.validateNetworkMapping(vm.nics.value, mappings.networkMappings, vmiCrName.namespace)[i].message != ""
    ensures ProcessMappingValidationFailures(ActionOf, withMessage, MappingFailures(v, vm, mappings, vmiCrName))
         == Condition(Valid, IncompleteMappingRules,
                      ErrorMessage(ActionOf, withMessage, MappingFailures(v, vm, mappings, vmiCrName)), ConditionFalse)
  {
    var failures := MappingFailures(v, vm, mappings, vmiCrName);
    var network := v.validateNetworkMapping(vm.nics.value, mappings.networkMappings, vmiCrName.namespace);
    assert failures[i] == network[i];
    BlockMakesError(ActionOf, withMessage, failures, i);
  }
}
