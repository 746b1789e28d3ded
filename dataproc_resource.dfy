/**
 * The Dataproc cluster cost model: the cluster descriptor, its usage
 * schema, and the composition of the ordered list of cost components, one
 * group of components per node role (master, worker, preemptible worker).
 */
module DataprocResource {
  import opened Wrappers

  /** A node group's compute settings (guest accelerators are not modelled). */
  datatype MasterConfig = MasterConfig(machineType: string, purchaseOption: string, numInstances: int)

  /** A node group's disk settings; the boot disk size is in GB. */
  datatype DiskConfig = DiskConfig(bootDiskType: string, bootDiskSize: int, numLocalSSDs: int)

  /**
   * One priced line item, as the three component factories receive their
   * arguments: a compute item, a boot-disk item and a local scratch-disk item.
   */
  datatype CostComponent =
    | Compute(nodeName: string, region: string, machineType: string, purchaseOption: string, quantity: int)
    | Disk(region: string, diskType: string, size: int, poolSize: int)
    | Scratch(region: string, purchaseOption: string, count: int)

  datatype UsageValueType = Float64

  datatype UsageItem = UsageItem(key: string, defaultValue: int, valueType: UsageValueType)

  /** The priced resource handed to the catalog layer. */
  datatype Resource = Resource(name: string, usageSchema: seq<UsageItem>, costComponents: seq<CostComponent>)

  /** Usage estimates read from the usage file, by usage key. */
  type UsageData = map<string, real>

  const MonthlyDataProcessedKey := "monthly_data_processed_gb"

  /** The resource's usage schema: one item, monthly data processed, default 0. */
  const UsageSchema: seq<UsageItem> := [UsageItem(MonthlyDataProcessedKey, 0, Float64)]

  const MasterLabel := "Master Node"
  const WorkerLabel := "Worker Node"
  const PreemptibleWorkerLabel := "Preemptible Worker Node"

  /** Every boot-disk component is priced for one disk. */
  const PoolSize := 1

  /** The components one node role contributes: compute, boot disk and maybe a scratch disk. */
  datatype RoleGroup = RoleGroup(compute: CostComponent, boot: CostComponent, scratch: Option<CostComponent>)
  {
    predicate WellFormed()
    {
      compute.Compute? && boot.Disk? && (scratch.Some? ==> scratch.value.Scratch?)
    }

    function Members(): (cs: seq<CostComponent>)
      ensures |cs| == if scratch.Some? then 3 else 2
    {
      [compute, boot] + (if scratch.Some? then [scratch.value] else [])
    }
  }

  function Flatten(gs: seq<RoleGroup>): (cs: seq<CostComponent>)
  {
    if gs == [] then [] else gs[0].Members() + Flatten(gs[1..])
  }

  /**
   * Reads a flat component list back as role groups: each group is a compute
   * component, a boot-disk component and, when the next one is a scratch
   * disk, that scratch disk. Any other shape is None.
   */
  function Regroup(cs: seq<CostComponent>): (r: Option<seq<RoleGroup>>)
    decreases |cs|
  {
    if cs == [] then Some([])
    else if |cs| >= 2 && cs[0].Compute? && cs[1].Disk? then
      var n := if |cs| >= 3 && cs[2].Scratch? then 3 else 2;
      var g := RoleGroup(cs[0], cs[1], if n == 3 then Some(cs[2]) else None);
      match Regroup(cs[n..])
      case Some(rest) => Some([g] + rest)
      case None => None
    else None
  }

  function CountScratch(cs: seq<CostComponent>): nat
  {
    if cs == [] then 0 else (if cs[0].Scratch? then 1 else 0) + CountScratch(cs[1..])
  }

  function CountScratchGroups(gs: seq<RoleGroup>): nat
  {
    if gs == [] then 0 else (if gs[0].scratch.Some? then 1 else 0) + CountScratchGroups(gs[1..])
  }

  /** Regrouping a flattened list of well-formed groups gives the groups back. */
  lemma {:induction false} RegroupFlatten(gs: seq<RoleGroup>)
    requires forall i :: 0 <= i < |gs| ==> gs[i].WellFormed()
    ensures Regroup(Flatten(gs)) == Some(gs)
  {
    if gs != [] {
      var m := gs[0].Members();
      var cs := Flatten(gs);
      assert cs == m + Flatten(gs[1..]);
      assert cs[|m|..] == Flatten(gs[1..]);
      RegroupFlatten(gs[1..]);
      assert [gs[0]] + gs[1..] == gs;
    }
  }

  /** A list that regroups is exactly the flattening of its groups, all well formed. */
  lemma {:induction false} FlattenRegroup(cs: seq<CostComponent>)
    requires Regroup(cs).Some?
    ensures Flatten(Regroup(cs).value) == cs
    ensures forall i :: 0 <= i < |Regroup(cs).value| ==> Regroup(cs).value[i].WellFormed()
  {
    if cs != [] {
      var n := if |cs| >= 3 && cs[2].Scratch? then 3 else 2;
      FlattenRegroup(cs[n..]);
      var gs := Regroup(cs).value;
      assert gs[1..] == Regroup(cs[n..]).value;
      assert gs[0].Members() == cs[..n];
      assert cs == cs[..n] + cs[n..];
    }
  }

  /** Two lists that regroup to the same groups are the same list. */
  lemma RegroupInjective(cs1: seq<CostComponent>, cs2: seq<CostComponent>)
    requires Regroup(cs1).Some? && Regroup(cs1) == Regroup(cs2)
    ensures cs1 == cs2
  {
    FlattenRegroup(cs1);
    FlattenRegroup(cs2);
  }

  /** A flattened list has two components per group plus one per scratch disk. */
  lemma {:induction false} FlattenCounts(gs: seq<RoleGroup>)
    requires forall i :: 0 <= i < |gs| ==> gs[i].WellFormed()
    ensures |Flatten(gs)| == 2 * |gs| + CountScratchGroups(gs)
    ensures CountScratch(Flatten(gs)) == CountScratchGroups(gs)
  {
    if gs != [] {
      FlattenCounts(gs[1..]);
      CountScratchAppend(gs[0].Members(), Flatten(gs[1..]));
      MembersScratch(gs[0]);
    }
  }

  lemma MembersScratch(g: RoleGroup)
    requires g.WellFormed()
    ensures CountScratch(g.Members()) == if g.scratch.Some? then 1 else 0
  {
    var m := g.Members();
    assert m[1..][1..] == if g.scratch.Some? then [g.scratch.value] else [];
    assert CountScratch(m[1..][1..]) == if g.scratch.Some? then 1 else 0 by {
      if g.scratch.Some? {
        assert m[1..][1..][1..] == [];
      }
    }
  }

  lemma {:induction false} CountScratchAppend(a: seq<CostComponent>, b: seq<CostComponent>)
    ensures CountScratch(a + b) == CountScratch(a) + CountScratch(b)
  {
    if a == [] {
      assert a + b == b;
    } else {
      assert (a + b)[0] == a[0];
      assert (a + b)[1..] == a[1..] + b;
      CountScratchAppend(a[1..], b);
    }
  }

  lemma FlattenThree(a: RoleGroup, b: RoleGroup, c: RoleGroup)
    ensures Flatten([a, b, c]) == a.Members() + b.Members() + c.Members()
    ensures CountScratchGroups([a, b, c])
            == (if a.scratch.Some? then 1 else 0) + (if b.scratch.Some? then 1 else 0) + (if c.scratch.Some? then 1 else 0)
  {
    assert [a, b, c][1..] == [b, c];
    assert [b, c][1..] == [c];
    assert [c][1..] == [];
    assert Flatten([c]) == c.Members();
    assert Flatten([b, c]) == b.Members() + Flatten([c]);
    assert Flatten([a, b, c]) == a.Members() + Flatten([b, c]);
    assert CountScratchGroups([c]) == if c.scratch.Some? then 1 else 0;
    assert CountScratchGroups([b, c]) == (if b.scratch.Some? then 1 else 0) + CountScratchGroups([c]);
  }

  /**
   * The group one role contributes, its compute component carrying `nodeName`. `quantity` is the compute quantity;
   * `scratchGate` decides whether a scratch disk of `scratchCount` disks is
   * added, priced with the role's own purchase option.
   */
  function RoleGroupOf(nodeName: string, region: string, config: MasterConfig, quantity: int,
                       disk: DiskConfig, scratchGate: bool, scratchCount: int): (g: RoleGroup)
    ensures g.WellFormed()
  {
    RoleGroup(
      Compute(nodeName, region, config.machineType, config.purchaseOption, quantity),
      Disk(region, disk.bootDiskType, disk.bootDiskSize, PoolSize),
      if scratchGate then Some(Scratch(region, config.purchaseOption, scratchCount)) else None)
  }

  /**
   * The three role groups, in emission order. The master's compute
   * quantity is its instance count; the worker's and the preemptible
   * worker's are 1. The preemptible worker's scratch disk is gated on the
   * WORKER's local-SSD count and counts the preemptible worker's own.
   */
  function ClusterGroups(region: string,
                         master: MasterConfig, masterDisk: DiskConfig,
                         worker: MasterConfig, workerDisk: DiskConfig,
                         preemptible: MasterConfig, preemptibleDisk: DiskConfig): seq<RoleGroup>
  {
    [ RoleGroupOf(MasterLabel, region, master, master.numInstances,
                  masterDisk, masterDisk.numLocalSSDs > 0, masterDisk.numLocalSSDs),
      RoleGroupOf(WorkerLabel, region, worker, 1,
                  workerDisk, workerDisk.numLocalSSDs > 0, workerDisk.numLocalSSDs),
      RoleGroupOf(PreemptibleWorkerLabel, region, preemptible, 1,
                  preemptibleDisk, workerDisk.numLocalSSDs > 0, preemptibleDisk.numLocalSSDs) ]
  }

  /** The cost components a cluster's configuration composes to. */
  function Composed(region: string,
                    master: MasterConfig, masterDisk: DiskConfig,
                    worker: MasterConfig, workerDisk: DiskConfig,
                    preemptible: MasterConfig, preemptibleDisk: DiskConfig): seq<CostComponent>
  {
    Flatten(ClusterGroups(region, master, masterDisk, worker, workerDisk, preemptible, preemptibleDisk))
  }

  function Gate(n: int): nat
  {
    if n > 0 then 1 else 0
  }

  /**
   * What a composed list is: it reads back as exactly three role groups in
   * the order master, worker, preemptible worker; it has six components plus
   * one per scratch disk, the scratch disks numbering one for the master's
   * gate and two for the worker's.
   */
  lemma ComposedStructure(region: string,
                          master: MasterConfig, masterDisk: DiskConfig,
                          worker: MasterConfig, workerDisk: DiskConfig,
                          preemptible: MasterConfig, preemptibleDisk: DiskConfig)
    ensures var cs := Composed(region, master, masterDisk, worker, workerDisk, preemptible, preemptibleDisk);
            Regroup(cs) == Some(ClusterGroups(region, master, masterDisk, worker, workerDisk, preemptible, preemptibleDisk))
            && CountScratch(cs) == Gate(masterDisk.numLocalSSDs) + 2 * Gate(workerDisk.numLocalSSDs)
            && |cs| == 6 + CountScratch(cs)
            && 6 <= |cs| <= 9
  {
    var gs := ClusterGroups(region, master, masterDisk, worker, workerDisk, preemptible, preemptibleDisk);
    RegroupFlatten(gs);
    FlattenCounts(gs);
    FlattenThree(gs[0], gs[1], gs[2]);
  }

  /**
   * The master and worker groups of a composed list: the master's compute
   * quantity is its instance count and the worker's is 1, every boot disk is
   * its role's disk type and size with pool size 1, and the master and
   * worker scratch disks are present exactly when their own role has local
   * SSDs, counting those and priced with their role's purchase option.
   * The preemptible worker's group is stated by PreemptibleScratchFollowsWorker.
   */
  lemma ComposedRoles(region: string,
                      master: MasterConfig, masterDisk: DiskConfig,
                      worker: MasterConfig, workerDisk: DiskConfig,
                      preemptible: MasterConfig, preemptibleDisk: DiskConfig)
    ensures Regroup(Composed(region, master, masterDisk, worker, workerDisk, preemptible, preemptibleDisk)).Some?
    ensures var gs := Regroup(Composed(region, master, masterDisk, worker, workerDisk, preemptible, preemptibleDisk)).value;
            |gs| == 3
            && gs[0].compute == Compute(MasterLabel, region, master.machineType, master.purchaseOption, master.numInstances)
            && gs[1].compute == Compute(WorkerLabel, region, worker.machineType, worker.purchaseOption, 1)
            && gs[2].compute == Compute(PreemptibleWorkerLabel, region, preemptible.machineType, preemptible.purchaseOption, 1)
            && gs[0].boot == Disk(region, masterDisk.bootDiskType, masterDisk.bootDiskSize, 1)
            && gs[1].boot == Disk(region, workerDisk.bootDiskType, workerDisk.bootDiskSize, 1)
            && gs[2].boot == Disk(region, preemptibleDisk.bootDiskType, preemptibleDisk.bootDiskSize, 1)
            && (gs[0].scratch.Some? <==> masterDisk.numLocalSSDs > 0)
            && (gs[0].scratch.Some? ==> gs[0].scratch.value == Scratch(region, master.purchaseOption, masterDisk.numLocalSSDs))
            && (gs[1].scratch.Some? <==> workerDisk.numLocalSSDs > 0)
            && (gs[1].scratch.Some? ==> gs[1].scratch.value == Scratch(region, worker.purchaseOption, workerDisk.numLocalSSDs))
  {
    ComposedStructure(region, master, masterDisk, worker, workerDisk, preemptible, preemptibleDisk);
  }

  /** The worker and preemptible worker instance counts never reach the components. */
  lemma ComposedIgnoresWorkerInstances(region: string,
                                       master: MasterConfig, masterDisk: DiskConfig,
                                       worker: MasterConfig, workerDisk: DiskConfig,
                                       preemptible: MasterConfig, preemptibleDisk: DiskConfig,
                                       workerCount: int, preemptibleCount: int)
    ensures Composed(region, master, masterDisk, worker, workerDisk, preemptible, preemptibleDisk)
         == Composed(region, master, masterDisk, worker.(numInstances := workerCount), workerDisk,
                     preemptible.(numInstances := preemptibleCount), preemptibleDisk)
  {
  }

  /**
   * As written, the preemptible worker's scratch disk follows the worker's
   * local-SSD count and counts the preemptible worker's own: with worker
   * SSDs and none of its own, a scratch disk of zero disks is still emitted;
   * with its own SSDs and none on the worker, none is emitted.
   */
  lemma PreemptibleScratchFollowsWorker(region: string,
                                        master: MasterConfig, masterDisk: DiskConfig,
                                        worker: MasterConfig, workerDisk: DiskConfig,
                                        preemptible: MasterConfig, preemptibleDisk: DiskConfig)
    ensures Regroup(Composed(region, master, masterDisk, worker, workerDisk, preemptible, preemptibleDisk)).Some?
    ensures var gs := Regroup(Composed(region, master, masterDisk, worker, workerDisk, preemptible, preemptibleDisk)).value;
            |gs| == 3
            && (gs[2].scratch.Some? <==> workerDisk.numLocalSSDs > 0)
            && (gs[2].scratch.Some? ==> gs[2].scratch.value == Scratch(region, preemptible.purchaseOption, preemptibleDisk.numLocalSSDs))
            && (workerDisk.numLocalSSDs > 0 && preemptibleDisk.numLocalSSDs == 0 ==>
                  gs[2].scratch == Some(Scratch(region, preemptible.purchaseOption, 0)))
            && (workerDisk.numLocalSSDs <= 0 && preemptibleDisk.numLocalSSDs > 0 ==> gs[2].scratch == None)
  {
    ComposedStructure(region, master, masterDisk, worker, workerDisk, preemptible, preemptibleDisk);
  }

  /**
   * The cluster descriptor. The translator fills it in once, the usage
   * overlay then sets its usage fields, and composition only reads it.
   */
  class DataprocCluster {
    var address: string
    var region: string
    var instanceCount: int
    var instanceType: string
    var usageType: string
    var masterConfig: MasterConfig
    var masterDiskConfig: DiskConfig
    var workerConfig: MasterConfig
    var workerDiskConfig: DiskConfig
    var preemptibleWorkerConfig: MasterConfig
    var preemptibleWorkerDiskConfig: DiskConfig
    /** Usage: monthly data processed in GB, None until the usage overlay sets it. */
    var monthlyDataProcessedGB: Option<real>

    constructor (address: string, region: string, instanceCount: int, instanceType: string, usageType: string,
                 masterConfig: MasterConfig, masterDiskConfig: DiskConfig,
                 workerConfig: MasterConfig, workerDiskConfig: DiskConfig,
                 preemptibleWorkerConfig: MasterConfig, preemptibleWorkerDiskConfig: DiskConfig)
      ensures this.address == address && this.region == region
      ensures this.instanceCount == instanceCount && this.instanceType == instanceType
      ensures this.usageType == usageType
      ensures this.masterConfig == masterConfig && this.masterDiskConfig == masterDiskConfig
      ensures this.workerConfig == workerConfig && this.workerDiskConfig == workerDiskConfig
      ensures this.preemptibleWorkerConfig == preemptibleWorkerConfig
      ensures this.preemptibleWorkerDiskConfig == preemptibleWorkerDiskConfig
      ensures monthlyDataProcessedGB == None
    {
      this.address := address;
      this.region := region;
      this.instanceCount := instanceCount;
      this.instanceType := instanceType;
      this.usageType := usageType;
      this.masterConfig := masterConfig;
      this.masterDiskConfig := masterDiskConfig;
      this.workerConfig := workerConfig;
      this.workerDiskConfig := workerDiskConfig;
      this.preemptibleWorkerConfig := preemptibleWorkerConfig;
      this.preemptibleWorkerDiskConfig := preemptibleWorkerDiskConfig;
      monthlyDataProcessedGB := None;
    }

    /**
     * Applies the usage overlay: a usage entry under the usage field's key
     * sets that field; without one the field keeps its value. Nothing else
     * on the descriptor changes.
     */
    method PopulateUsage(u: UsageData)
      modifies this`monthlyDataProcessedGB
      ensures MonthlyDataProcessedKey in u ==> monthlyDataProcessedGB == Some(u[MonthlyDataProcessedKey])
      ensures MonthlyDataProcessedKey !in u ==> monthlyDataProcessedGB == old(monthlyDataProcessedGB)
    {
      if MonthlyDataProcessedKey in u {
        monthlyDataProcessedGB := Some(u[MonthlyDataProcessedKey]);
      }
    }

    /**
     * Composes the priced resource: named by the address, with the fixed
     * usage schema, and the cost components in role order.
     */
    method BuildResource() returns (res: Resource)
      ensures res.name == address && res.usageSchema == UsageSchema
      ensures res.costComponents == Composed(region, masterConfig, masterDiskConfig, workerConfig, workerDiskConfig,
                                             preemptibleWorkerConfig, preemptibleWorkerDiskConfig)
      ensures Regroup(res.costComponents)
              == Some(ClusterGroups(region, masterConfig, masterDiskConfig, workerConfig, workerDiskConfig,
                                    preemptibleWorkerConfig, preemptibleWorkerDiskConfig))
      ensures |res.costComponents| == 6 + CountScratch(res.costComponents)
      ensures CountScratch(res.costComponents)
              == Gate(masterDiskConfig.numLocalSSDs) + 2 * Gate(workerDiskConfig.numLocalSSDs)
    {
      ghost var gs := ClusterGroups(region, masterConfig, masterDiskConfig, workerConfig, workerDiskConfig,
                                    preemptibleWorkerConfig, preemptibleWorkerDiskConfig);
      var poolSize := PoolSize;

      // master node group
      var costComponents := [
        Compute(MasterLabel, region, masterConfig.machineType, masterConfig.purchaseOption, masterConfig.numInstances),
        Disk(region, masterDiskConfig.bootDiskType, masterDiskConfig.bootDiskSize, poolSize)
      ];
      if masterDiskConfig.numLocalSSDs > 0 {
        costComponents := costComponents + [Scratch(region, masterConfig.purchaseOption, masterDiskConfig.numLocalSSDs)];
      }

      assert costComponents == gs[0].Members();

      // worker node group
      costComponents := costComponents + [Compute(WorkerLabel, region, workerConfig.machineType, workerConfig.purchaseOption, 1)];
      costComponents := costComponents + [Disk(region, workerDiskConfig.bootDiskType, workerDiskConfig.bootDiskSize, poolSize)];
      if workerDiskConfig.numLocalSSDs > 0 {
        costComponents := costComponents + [Scratch(region, workerConfig.purchaseOption, workerDiskConfig.numLocalSSDs)];
      }

      assert costComponents == gs[0].Members() + gs[1].Members();

      // preemptible worker node group; the scratch disk is gated on the worker's SSD count
      costComponents := costComponents
        + [Compute(PreemptibleWorkerLabel, region, preemptibleWorkerConfig.machineType, preemptibleWorkerConfig.purchaseOption, 1)];
      costComponents := costComponents
        + [Disk(region, preemptibleWorkerDiskConfig.bootDiskType, preemptibleWorkerDiskConfig.bootDiskSize, poolSize)];
      if workerDiskConfig.numLocalSSDs > 0 {
        costComponents := costComponents
          + [Scratch(region, preemptibleWorkerConfig.purchaseOption, preemptibleWorkerDiskConfig.numLocalSSDs)];
      }

      assert costComponents == gs[0].Members() + gs[1].Members() + gs[2].Members();
      FlattenThree(gs[0], gs[1], gs[2]);
      ComposedStructure(region, masterConfig, masterDiskConfig, workerConfig, workerDiskConfig,
                        preemptibleWorkerConfig, preemptibleWorkerDiskConfig);
      res := Resource(address, UsageSchema, costComponents);
    }
  }
}
