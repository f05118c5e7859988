/**
 * The create-launch-configuration request: defaults filled in place,
 * including the EBS-optimisation flag looked up in a fixed table of
 * instance types, and an optional EBS root volume appended as a block
 * device mapping.
 */
module LaunchConfig {
  import opened Wrappers

  /** The instance types launched EBS-optimised. */
  const EbsOptimizedInstances: set<string> := {
    "c4.large", "c4.xlarge", "c4.2xlarge", "c4.4xlarge", "c4.8xlarge",
    "c5.large", "c5.xlarge", "c5.2xlarge", "c5.4xlarge", "c5.9xlarge", "c5.18xlarge",
    "i3.large", "i3.xlarge", "i3.2xlarge", "i3.4xlarge", "i3.8xlarge", "i3.16xlarge",
    "m4.large", "m4.xlarge", "m4.2xlarge", "m4.4xlarge", "m4.10xlarge", "m4.16xlarge",
    "m5.large", "m5.xlarge", "m5.2xlarge", "m5.4xlarge", "m5.12xlarge", "m5.24xlarge",
    "r4.large", "r4.xlarge", "r4.2xlarge", "r4.4xlarge", "r4.8xlarge", "r4.16xlarge"
  }

  const DefaultInstanceType := "t2.nano"
  const DefaultVolumeType := "gp2"
  const DefaultDeviceName := "/dev/xvda"

  /** A block device with an EBS volume. */
  datatype BlockDeviceMapping = BlockDeviceMapping(deviceName: string, volumeSize: int, volumeType: string)

  /** The mapping `AddBlockDevice` appends for a present size. */
  function BlockDevice(volumeSize: int, volumeType: Option<string>, deviceName: Option<string>): (b: BlockDeviceMapping)
    ensures b.volumeSize == volumeSize
    ensures b.volumeType == (if volumeType.Some? then volumeType.value else "gp2")
    ensures b.deviceName == (if deviceName.Some? then deviceName.value else "/dev/xvda")
  {
    BlockDeviceMapping(deviceName.GetOr(DefaultDeviceName), volumeSize, volumeType.GetOr(DefaultVolumeType))
  }

  /** Whether an instance type is EBS-optimised: a lookup in the table, false when missing. */
  predicate EbsOptimizedType(instanceType: string)
  {
    instanceType in EbsOptimizedInstances
  }

  /** The default instance type is not in the table. */
  lemma DefaultTypeNotOptimized()
    ensures !EbsOptimizedType(DefaultInstanceType)
    ensures EbsOptimizedType("c4.large") && EbsOptimizedType("r4.16xlarge")
  {
  }

  /** `lc.LaunchConfigInput`: the request wrapped by the deployer. */
  class LaunchConfigInput {
    var launchConfigurationName: Option<string>
    var imageId: Option<string>
    var securityGroups: seq<string>
    var iamInstanceProfile: Option<string>
    var instanceType: Option<string>
    var userData: Option<string>
    var instanceMonitoring: Option<bool>
    var ebsOptimized: Option<bool>
    var blockDeviceMappings: seq<BlockDeviceMapping>

    /** An empty request. */
    constructor ()
      ensures launchConfigurationName.None? && imageId.None? && securityGroups == [] && iamInstanceProfile.None?
      ensures instanceType.None? && userData.None? && instanceMonitoring.None? && ebsOptimized.None?
      ensures blockDeviceMappings == []
    {
      launchConfigurationName, imageId, securityGroups, iamInstanceProfile := None, None, [], None;
      instanceType, userData, instanceMonitoring, ebsOptimized := None, None, None, None;
      blockDeviceMappings := [];
    }

    /**
     * Instance type "t2.nano" and monitoring disabled when absent; an absent
     * EBS-optimisation flag becomes the table lookup of the (defaulted)
     * instance type.
     */
    method SetDefaults()
      modifies this
      ensures instanceType == Some(old(instanceType).GetOr(DefaultInstanceType))
      ensures instanceMonitoring == Some(old(instanceMonitoring).GetOr(false))
      ensures ebsOptimized == if old(ebsOptimized).Some? then old(ebsOptimized) else Some(EbsOptimizedType(instanceType.value))
      ensures launchConfigurationName == old(launchConfigurationName) && imageId == old(imageId)
      ensures securityGroups == old(securityGroups) && iamInstanceProfile == old(iamInstanceProfile)
      ensures userData == old(userData) && blockDeviceMappings == old(blockDeviceMappings)
    {
      if instanceType.None? {
        instanceType := Some(DefaultInstanceType);
      }
      if instanceMonitoring.None? {
        instanceMonitoring := Some(false);
      }
      if ebsOptimized.None? {
        ebsOptimized := Some(EbsOptimizedType(instanceType.value));
      }
    }

    /** Nothing for an absent size; otherwise exactly one mapping appended after the existing ones. */
    method AddBlockDevice(volumeSize: Option<int>, volumeType: Option<string>, deviceName: Option<string>)
      modifies this
      ensures volumeSize.None? ==> blockDeviceMappings == old(blockDeviceMappings)
      ensures volumeSize.Some? ==> blockDeviceMappings == old(blockDeviceMappings) + [BlockDevice(volumeSize.value, volumeType, deviceName)]
      ensures launchConfigurationName == old(launchConfigurationName) && imageId == old(imageId)
      ensures securityGroups == old(securityGroups) && iamInstanceProfile == old(iamInstanceProfile)
      ensures instanceType == old(instanceType) && userData == old(userData)
      ensures instanceMonitoring == old(instanceMonitoring) && ebsOptimized == old(ebsOptimized)
    {
      if volumeSize.None? {
        return;
      }
      var vt := if volumeType.None? then DefaultVolumeType else volumeType.value;
      var dev := if deviceName.None? then DefaultDeviceName else deviceName.value;
      blockDeviceMappings := blockDeviceMappings + [BlockDeviceMapping(dev, volumeSize.value, vt)];
    }
  }

  /** Three additions of a 10 GiB volume: defaults filled where a name or type is missing, in call order. */
  method AddBlockDeviceCases() returns (mappings: seq<BlockDeviceMapping>)
    ensures mappings == [
      BlockDeviceMapping("/dev/xvda", 10, "gp2"),
      BlockDeviceMapping("/dev/xvda", 10, "asd"),
      BlockDeviceMapping("asd", 10, "gp2")]
  {
    var input := new LaunchConfigInput();
    input.AddBlockDevice(Some(10), None, None);
    input.AddBlockDevice(Some(10), Some("asd"), None);
    input.AddBlockDevice(Some(10), None, Some("asd"));
    input.AddBlockDevice(None, Some("ignored"), None);
    mappings := input.blockDeviceMappings;
  }
}
