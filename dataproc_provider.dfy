/**
 * The Terraform translator for `google_dataproc_cluster`: it reads the
 * resource's attributes, extracts one compute config and one disk config per
 * node role from fixed block paths, assembles the cluster descriptor, applies
 * the usage overlay and composes the priced resource.
 */
module DataprocProvider {
  import opened Wrappers
  import opened Attributes
  import opened DataprocResource

  const DefaultMachineType := "e2-medium"
  const OnDemand := "on_demand"
  const Preemptible := "preemptible"
  const DefaultDiskType := "pd-standard"
  const DefaultDiskSize := 100
  const DefaultUsageType := "default"

  const MasterConfigPath := "cluster_config.0.master_config.0"
  const MasterDiskConfigPath := "cluster_config.0.master_config.0.disk_config.0"
  const WorkerConfigPath := "cluster_config.0.worker_config.0"
  const WorkerDiskConfigPath := "cluster_config.0.worker_config.0.disk_config.0"
  const PreemptibleWorkerConfigPath := "cluster_config.0.preemptible_worker_config.0"
  const PreemptibleWorkerDiskConfigPath := "cluster_config.0.preemptible_worker_config.0.disk_config.0"

  /** The top-level attribute the instance count is read from. */
  const InstanceCountKey := "terraformFieldThatHasNumberOfInstances"

  /**
   * A node group's compute config. The machine type is the block's value when
   * the key is present (even a null one) and the default otherwise; the
   * purchase option is preemptible exactly when the block's flag reads true.
   */
  function NewMasterConfig(b: Block): (c: MasterConfig)
    ensures Exists(b, "machine_type") ==> c.machineType == GetString(b, "machine_type")
    ensures !Exists(b, "machine_type") ==> c.machineType == DefaultMachineType
    ensures c.purchaseOption in {OnDemand, Preemptible}
    ensures c.purchaseOption == Preemptible <==> GetBool(b, "preemptible")
    ensures c.numInstances == GetInt(b, "num_instances")
    ensures !Exists(b, "num_instances") ==> c.numInstances == 0
  {
    var machineType := if Exists(b, "machine_type") then GetString(b, "machine_type") else DefaultMachineType;
    var purchaseOption := if GetBool(b, "preemptible") then Preemptible else OnDemand;
    MasterConfig(machineType, purchaseOption, GetInt(b, "num_instances"))
  }

  /** A node group's disk config, each field defaulted independently. */
  function NewDiskConfig(b: Block): (c: DiskConfig)
    ensures Exists(b, "boot_disk_type") ==> c.bootDiskType == GetString(b, "boot_disk_type")
    ensures !Exists(b, "boot_disk_type") ==> c.bootDiskType == DefaultDiskType
    ensures Exists(b, "boot_disk_size_gb") ==> c.bootDiskSize == GetInt(b, "boot_disk_size_gb")
    ensures !Exists(b, "boot_disk_size_gb") ==> c.bootDiskSize == DefaultDiskSize
    ensures c.numLocalSSDs == GetInt(b, "num_local_ssds")
    ensures !Exists(b, "num_local_ssds") ==> c.numLocalSSDs == 0
  {
    var diskType := if Exists(b, "boot_disk_type") then GetString(b, "boot_disk_type") else DefaultDiskType;
    var diskSize := if Exists(b, "boot_disk_size_gb") then GetInt(b, "boot_disk_size_gb") else DefaultDiskSize;
    DiskConfig(diskType, diskSize, GetInt(b, "num_local_ssds"))
  }

  /** An absent block still gives a complete config, made of the defaults. */
  lemma AbsentBlockDefaults()
    ensures NewMasterConfig(map[]) == MasterConfig(DefaultMachineType, OnDemand, 0)
    ensures NewDiskConfig(map[]) == DiskConfig(DefaultDiskType, DefaultDiskSize, 0)
  {
  }

  /**
   * The first field of `s` split at `sep`: the longest prefix of `s` without
   * `sep`, which is all of `s` when `sep` does not occur.
   */
  function BeforeFirst(s: string, sep: char): (r: string)
    ensures r <= s
    ensures sep !in r
    ensures |r| < |s| ==> s[|r|] == sep
  {
    if |s| == 0 || s[0] == sep then "" else [s[0]] + BeforeFirst(s[1..], sep)
  }

  /** Those three properties determine the first field. */
  lemma BeforeFirstUnique(s: string, sep: char, t: string)
    requires t <= s && sep !in t
    requires |t| < |s| ==> s[|t|] == sep
    ensures t == BeforeFirst(s, sep)
  {
  }

  /** The instance type is the SKU name up to its first underscore. */
  function InstanceTypeOf(sku: string): (r: string)
    ensures r <= sku && '_' !in r
    ensures |r| < |sku| ==> sku[|r|] == '_'
  {
    BeforeFirst(sku, '_')
  }

  /** The usage type: the attribute's text unless it is empty, and "default" then. */
  function UsageTypeOf(attrs: Block): (r: string)
    ensures IsEmpty(attrs, "usageType") ==> r == DefaultUsageType
    ensures !IsEmpty(attrs, "usageType") ==> r == GetString(attrs, "usageType")
    ensures r != ""
  {
    if IsEmpty(attrs, "usageType") then DefaultUsageType
    else
      NotEmptyHasText(attrs, "usageType");
      GetString(attrs, "usageType")
  }

  /** The cost components the translator produces for `d`. */
  function ComposedFor(d: ResourceData): seq<CostComponent>
  {
    Composed(GetString(d.attrs, "region"),
             NewMasterConfig(BlockAt(d, MasterConfigPath)), NewDiskConfig(BlockAt(d, MasterDiskConfigPath)),
             NewMasterConfig(BlockAt(d, WorkerConfigPath)), NewDiskConfig(BlockAt(d, WorkerDiskConfigPath)),
             NewMasterConfig(BlockAt(d, PreemptibleWorkerConfigPath)),
             NewDiskConfig(BlockAt(d, PreemptibleWorkerDiskConfigPath)))
  }

  /**
   * Reads the top-level attributes and the six role blocks into a new
   * cluster descriptor, every role config present; no usage is set yet.
   */
  method NewDescriptor(d: ResourceData) returns (r: DataprocCluster)
    ensures fresh(r)
    ensures r.address == d.address && r.region == GetString(d.attrs, "region")
    ensures r.instanceType == InstanceTypeOf(GetString(d.attrs, "sku_name"))
    ensures r.instanceCount == GetInt(d.attrs, InstanceCountKey)
    ensures r.usageType == UsageTypeOf(d.attrs)
    ensures r.masterConfig == NewMasterConfig(BlockAt(d, MasterConfigPath))
    ensures r.masterDiskConfig == NewDiskConfig(BlockAt(d, MasterDiskConfigPath))
    ensures r.workerConfig == NewMasterConfig(BlockAt(d, WorkerConfigPath))
    ensures r.workerDiskConfig == NewDiskConfig(BlockAt(d, WorkerDiskConfigPath))
    ensures r.preemptibleWorkerConfig == NewMasterConfig(BlockAt(d, PreemptibleWorkerConfigPath))
    ensures r.preemptibleWorkerDiskConfig == NewDiskConfig(BlockAt(d, PreemptibleWorkerDiskConfigPath))
    ensures r.monthlyDataProcessedGB == None
  {
    var region := GetString(d.attrs, "region");
    var sku := GetString(d.attrs, "sku_name");
    var instanceType := InstanceTypeOf(sku);
    var count := GetInt(d.attrs, InstanceCountKey);
    var usageType := UsageTypeOf(d.attrs);
    var masterConfig := NewMasterConfig(BlockAt(d, MasterConfigPath));
    var masterDiskConfig := NewDiskConfig(BlockAt(d, MasterDiskConfigPath));
    var workerConfig := NewMasterConfig(BlockAt(d, WorkerConfigPath));
    var workerDiskConfig := NewDiskConfig(BlockAt(d, WorkerDiskConfigPath));
    var preemptibleWorkerConfig := NewMasterConfig(BlockAt(d, PreemptibleWorkerConfigPath));
    var preemptibleWorkerDiskConfig := NewDiskConfig(BlockAt(d, PreemptibleWorkerDiskConfigPath));
    r := new DataprocCluster(d.address, region, count, instanceType, usageType,
                             masterConfig, masterDiskConfig, workerConfig, workerDiskConfig,
                             preemptibleWorkerConfig, preemptibleWorkerDiskConfig);
  }

  /**
   * Translates one resource: the descriptor, then the usage overlay, then
   * composition. The usage overlay does not reach the cost components.
   */
  method NewDataprocCluster(d: ResourceData, u: UsageData) returns (res: Resource)
    ensures res.name == d.address && res.usageSchema == UsageSchema
    ensures res.costComponents == ComposedFor(d)
  {
    var r := NewDescriptor(d);
    r.PopulateUsage(u);
    res := r.BuildResource();
  }

  /**
   * With every role block absent, each role is still priced, on defaults:
   * an on-demand e2-medium master with quantity 0 (no instance count), the
   * two worker roles with quantity 1, standard 100 GB boot disks, and no
   * scratch disks.
   */
  lemma DefaultsWhenBlocksAbsent(d: ResourceData)
    requires MasterConfigPath !in d.blocks && MasterDiskConfigPath !in d.blocks
    requires WorkerConfigPath !in d.blocks && WorkerDiskConfigPath !in d.blocks
    requires PreemptibleWorkerConfigPath !in d.blocks && PreemptibleWorkerDiskConfigPath !in d.blocks
    ensures var region := GetString(d.attrs, "region");
            ComposedFor(d) == [
              Compute(MasterLabel, region, DefaultMachineType, OnDemand, 0),
              Disk(region, DefaultDiskType, DefaultDiskSize, 1),
              Compute(WorkerLabel, region, DefaultMachineType, OnDemand, 1),
              Disk(region, DefaultDiskType, DefaultDiskSize, 1),
              Compute(PreemptibleWorkerLabel, region, DefaultMachineType, OnDemand, 1),
              Disk(region, DefaultDiskType, DefaultDiskSize, 1)]
  {
    var region := GetString(d.attrs, "region");
    var mc := NewMasterConfig(map[]);
    var dc := NewDiskConfig(map[]);
    var gs := ClusterGroups(region, mc, dc, mc, dc, mc, dc);
    FlattenThree(gs[0], gs[1], gs[2]);
  }

  /**
   * A preemptible master of three n2-standard-4 instances with a 500 GB
   * pd-ssd boot disk and two local SSDs is priced as such, its scratch disks
   * preemptible too.
   */
  lemma PreemptibleMasterPriced(d: ResourceData)
    requires MasterConfigPath in d.blocks && MasterDiskConfigPath in d.blocks
    requires d.blocks[MasterConfigPath]
             == map["machine_type" := Str("n2-standard-4"), "preemptible" := Bool(true), "num_instances" := Num(3)]
    requires d.blocks[MasterDiskConfigPath]
             == map["boot_disk_type" := Str("pd-ssd"), "boot_disk_size_gb" := Num(500), "num_local_ssds" := Num(2)]
    ensures var region := GetString(d.attrs, "region");
            ComposedFor(d)[..3] == [
              Compute(MasterLabel, region, "n2-standard-4", Preemptible, 3),
              Disk(region, "pd-ssd", 500, 1),
              Scratch(region, Preemptible, 2)]
  {
  }
}
