/**
 * The rule catalog: the static table `checkToAction` that gives every check
 * identifier the action that the classifier takes on its failures.
 */
module Catalog {

  import opened Wrappers

  /** The three actions, with the integer codes of the Go constants `log`, `warn` and `block`. */
  datatype Action = Log | Warn | Block

  function Code(a: Action): (n: int)
    ensures 0 <= n <= 2
    ensures n == 0 <==> a == Log
  {
    match a
    case Log => 0
    case Warn => 1
    case Block => 2
  }

  /** The zero value of the Go type `action`: the code 0, that is `log`. */
  const ZeroAction: Action := Log

  /**
   * The check identifiers of the validators package, one constructor per key of
   * `checkToAction` (spelled as in the source, `DiskStoragaTypeID` included).
   * `Unlisted` stands for any identifier the table does not list.
   */
  datatype CheckID =
    // NIC rules
    | NicInterfaceCheckID | NicOnBootID | NicPluggedID | NicVNicPortMirroringID
    | NicVNicCustomPropertiesID | NicVNicNetworkFilterID | NicVNicQosID
    // Storage rules
    | DiskAttachmentsExistID | DiskAttachmentInterfaceID | DiskAttachmentLogicalNameID
    | DiskAttachmentPassDiscardID | DiskAttachmentUsesScsiReservationID | DiskInterfaceID
    | DiskLogicalNameID | DiskUsesScsiReservationID | DiskBackupID | DiskLunStorageID
    | DiskPropagateErrorsID | DiskWipeAfterDeleteID | DiskStatusID | DiskStoragaTypeID
    | DiskSgioID
    // VM rules
    | VMBiosBootMenuID | VMStatusID | VMBiosTypeID | VMBiosTypeQ35SecureBootID
    | VMCpuArchitectureID | VMCpuTuneID | VMCpuSharesID | VMCustomEmulatedMachine
    | VMCustomPropertiesID | VMDisplayTypeID | VMHasIllegalImagesID
    | VMHighAvailabilityPriorityID | VMIoThreadsID | VMMemoryPolicyBallooningID
    | VMMemoryPolicyOvercommitPercentID | VMMemoryPolicyGuaranteedID
    | VMMemoryTemplateLimitID | VMMigrationID | VMMigrationDowntimeID | VMNumaTuneModeID
    | VMOriginID | VMPlacementPolicyAffinityID | VMRngDeviceSourceID | VMSoundcardEnabledID
    | VMStartPausedID | VMStorageErrorResumeBehaviourID | VMTunnelMigrationID | VMUsbID
    | VMGraphicConsolesID | VMHostDevicesID | VMReportedDevicesID | VMQuotaID
    | VMWatchdogsID | VMCdromsID | VMFloppiesID | VMTimezoneID
    // Network mapping validation
    | NetworkConfig | NetworkTargetID | NetworkMappingID | NetworkMultiplePodTargetsID
    | NetworkTypeID
    // Storage mapping validation
    | StorageTargetID | DiskTargetID | StorageTargetDefaultClass
    // Any identifier that has no entry in the table
    | Unlisted(name: string)

  /** The identifiers the network-mapping validator reports. */
  predicate IsNetworkMappingCheck(id: CheckID) {
    id.NetworkConfig? || id.NetworkTargetID? || id.NetworkMappingID? || id.NetworkMultiplePodTargetsID? || id.NetworkTypeID?
  }

  /** The identifiers the storage-mapping validator reports. */
  predicate IsStorageMappingCheck(id: CheckID) {
    id.StorageTargetID? || id.DiskTargetID? || id.StorageTargetDefaultClass?
  }

  /**
   * The table `checkToAction`, read as a partial map: the entry for `id`, or
   * `None` when the table has no key `id`.
   */
  function CheckToAction(id: CheckID): (entry: Option<Action>)
    ensures entry.None? <==> id.Unlisted?
  {
    match id
    // NIC rules
    case NicInterfaceCheckID => Some(Block)
    case NicOnBootID => Some(Log)
    case NicPluggedID => Some(Warn)
    case NicVNicPortMirroringID => Some(Warn)
    case NicVNicCustomPropertiesID => Some(Warn)
    case NicVNicNetworkFilterID => Some(Warn)
    case NicVNicQosID => Some(Log)
    // Storage rules
    case DiskAttachmentsExistID => Some(Block)
    case DiskAttachmentInterfaceID => Some(Block)
    case DiskAttachmentLogicalNameID => Some(Log)
    case DiskAttachmentPassDiscardID => Some(Log)
    case DiskAttachmentUsesScsiReservationID => Some(Block)
    case DiskInterfaceID => Some(Block)
    case DiskLogicalNameID => Some(Log)
    case DiskUsesScsiReservationID => Some(Block)
    case DiskBackupID => Some(Warn)
    case DiskLunStorageID => Some(Block)
    case DiskPropagateErrorsID => Some(Log)
    case DiskWipeAfterDeleteID => Some(Log)
    case DiskStatusID => Some(Block)
    case DiskStoragaTypeID => Some(Block)
    case DiskSgioID => Some(Block)
    // VM rules
    case VMBiosBootMenuID => Some(Log)
    case VMStatusID => Some(Block)
    case VMBiosTypeID => Some(Block)
    case VMBiosTypeQ35SecureBootID => Some(Warn)
    case VMCpuArchitectureID => Some(Block)
    case VMCpuTuneID => Some(Warn)
    case VMCpuSharesID => Some(Log)
    case VMCustomEmulatedMachine => Some(Log)
    case VMCustomPropertiesID => Some(Warn)
    case VMDisplayTypeID => Some(Log)
    case VMHasIllegalImagesID => Some(Block)
    case VMHighAvailabilityPriorityID => Some(Log)
    case VMIoThreadsID => Some(Warn)
    case VMMemoryPolicyBallooningID => Some(Log)
    case VMMemoryPolicyOvercommitPercentID => Some(Log)
    case VMMemoryPolicyGuaranteedID => Some(Log)
    case VMMemoryTemplateLimitID => Some(Block)
    case VMMigrationID => Some(Log)
    case VMMigrationDowntimeID => Some(Log)
    case VMNumaTuneModeID => Some(Warn)
    case VMOriginID => Some(Block)
    case VMPlacementPolicyAffinityID => Some(Block)
    case VMRngDeviceSourceID => Some(Log)
    case VMSoundcardEnabledID => Some(Warn)
    case VMStartPausedID => Some(Log)
    case VMStorageErrorResumeBehaviourID => Some(Log)
    case VMTunnelMigrationID => Some(Warn)
    case VMUsbID => Some(Block)
    case VMGraphicConsolesID => Some(Log)
    case VMHostDevicesID => Some(Log)
    case VMReportedDevicesID => Some(Log)
    case VMQuotaID => Some(Log)
    case VMWatchdogsID => Some(Block)
    case VMCdromsID => Some(Log)
    case VMFloppiesID => Some(Log)
    case VMTimezoneID => Some(Block)
    // Network mapping validation
    case NetworkConfig => Some(Block)
    case NetworkTargetID => Some(Block)
    case NetworkMappingID => Some(Block)
    case NetworkMultiplePodTargetsID => Some(Block)
    case NetworkTypeID => Some(Block)
    // Storage mapping validation
    case StorageTargetID => Some(Block)
    case DiskTargetID => Some(Block)
    case StorageTargetDefaultClass => Some(Warn)
    case Unlisted(_) => None
  }

  /**
   * `checkToAction[id]`: a Go map lookup, which yields the zero value when the
   * key is missing, so an identifier without an entry is treated as `log`.
   */
  function ActionOf(id: CheckID): (a: Action)
    ensures CheckToAction(id).None? ==> a == ZeroAction && Code(a) == 0
    ensures id.Unlisted? ==> a == Log
    ensures IsNetworkMappingCheck(id) ==> a == Block
    ensures IsStorageMappingCheck(id) && id != StorageTargetDefaultClass ==> a == Block
    ensures id == StorageTargetDefaultClass ==> a == Warn
    ensures id == DiskAttachmentUsesScsiReservationID || id == DiskUsesScsiReservationID ==> a == Block
  {
    match CheckToAction(id)
    case Some(entry) => entry
    case None => ZeroAction
  }
}
