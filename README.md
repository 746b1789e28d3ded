# Dataproc cluster cost translator, modelled in Dafny

This project models the infracost translator for the Terraform resource `google_dataproc_cluster`, together with the cost-component composer for that resource. The translator reads the resource's attributes. It reads one compute block and one disk block for each node role (master, worker and preemptible worker) at fixed block paths, and fills in defaults for every missing key. From these it assembles a `DataprocCluster` descriptor and applies the usage overlay. The composer then builds the priced resource: an ordered list of cost components with a compute item, a boot-disk item and an optional local scratch-disk item for each role.

Files:

- `wrappers.dfy`: module `Wrappers`, an `Option` type. It stands for a Go pointer that may be nil.
- `attributes.dfy`: module `Attributes`, the attribute reader the translator uses. A block is a finite map from key to a typed scalar (`Str`, `Num`, `Bool`, or `Null` for a key present with a JSON null). The reader has an existence check, plus string, integer and boolean reads that give the zero value for a missing key. A number's string form is its decimal text. An integer read of a string parses an optional `-` followed by digits, and gives 0 otherwise. A boolean read of a string is true when its lower-case form is `1`, `t` or `true`. A proved round trip shows that parsing a number's decimal text gives the number back.
- `dataproc_resource.dfy`: module `DataprocResource`, for `internal/resources/google/dataproc_cluster.go`. It holds:
  - the config records;
  - the cost components, as records over the arguments the factory functions receive;
  - the usage schema;
  - the `DataprocCluster` class with `PopulateUsage` and `BuildResource`.

  `BuildResource` extends a sequence step by step, in the same order as the source. It is proved against `Composed`, the flattening of three role groups. An independent parser, `Regroup`, splits any flat component list back into role groups. Flattening and regrouping are proved inverse, and from that the lemmas derive the order, the length (6 to 9) and the scratch-disk count. `ComposedRoles` and `PreemptibleScratchFollowsWorker` then state each role's compute, boot-disk and scratch-disk items.
- `dataproc_provider.dfy`: module `DataprocProvider`, for `internal/providers/terraform/google/dataproc_cluster.go`. It holds:
  - the two defaulting extractors;
  - the split of `sku_name` at its first `_`;
  - the `usageType` default;
  - the assembly of the descriptor (`NewDescriptor`) and the full translation (`NewDataprocCluster`).

Behaviour reproduced as the code has it:

- The preemptible worker's scratch disk is gated on the **worker's** local-SSD count (resources file, line 125), but its count comes from the preemptible worker's own disk config (line 126). So a cluster whose workers have SSDs and whose preemptible workers have none still gets a preemptible scratch component of 0 disks. A cluster with preemptible SSDs but no worker SSDs gets none. `PreemptibleScratchFollowsWorker` proves both cases, and `ComposedStructure` counts one scratch component for the master gate plus two for the worker gate.
- The master compute quantity is the master's `num_instances`, which is 0 when absent. So an all-default cluster prices its master with quantity 0 (`DefaultsWhenBlocksAbsent`), not 1.
- A key present with a null value counts as existing. So `machine_type: null` gives the empty machine type rather than `e2-medium`, and `boot_disk_size_gb: null` gives size 0.
- `region` is read without any check. A missing region reads as the empty string, and no error is raised: the code has no missing-field or wrong-type error path.
- Only the compute component carries a role label ("Master Node", "Worker Node", "Preemptible Worker Node"). The disk and scratch-disk factories receive no label.

## Model

| member | source | states |
|---|---|---|
| Attributes.BlockAt | internal/providers/terraform/google/dataproc_cluster.go:38-43 | a role block that is absent reads as the empty block, never as a failure |
| Attributes.GetString | internal/providers/terraform/google/dataproc_cluster.go:20 | reading a missing key as a string gives ""; a string value reads as itself |
| Attributes.GetInt | internal/providers/terraform/google/dataproc_cluster.go:81 | reading a missing key as an integer gives 0; a number reads as itself |
| Attributes.GetBool | internal/providers/terraform/google/dataproc_cluster.go:77 | reading a missing key as a boolean gives false; a boolean reads as itself |
| Attributes.NotEmptyHasText | internal/providers/terraform/google/dataproc_cluster.go:30-31 | a key that is not empty (not missing, null or "") reads as a non-empty string |
| Attributes.ParseDecimalText | internal/providers/terraform/google/dataproc_cluster.go:102 | a property of the attribute reader, not of the translator: its integer read of a string inverts its string form of a number, for every integer |
| DataprocResource.RegroupFlatten | internal/resources/google/dataproc_cluster.go:100-127 | regrouping the flattening of well-formed role groups gives the same groups back |
| DataprocResource.FlattenRegroup | internal/resources/google/dataproc_cluster.go:100-127 | a list that regroups is exactly the flattening of its groups, and every group is well formed |
| DataprocResource.RegroupInjective | internal/resources/google/dataproc_cluster.go:100-127 | two component lists with the same role groups are identical, so the role groups determine the output |
| DataprocResource.FlattenCounts | internal/resources/google/dataproc_cluster.go:100-127 | a flattened list has two components per role plus one per scratch disk, and its scratch count is the number of groups with a scratch disk |
| DataprocResource.ComposedStructure | internal/resources/google/dataproc_cluster.go:100-127 | the composed list regroups into exactly the master, worker and preemptible groups in that order; it holds 6 components plus one per scratch disk (6 to 9 in all); the scratch count is the master gate plus twice the worker gate |
| DataprocResource.ComposedRoles | internal/resources/google/dataproc_cluster.go:100-123 | master compute has the master's instance count and label "Master Node"; worker and preemptible compute have quantity 1 and labels "Worker Node" and "Preemptible Worker Node"; every boot disk is its role's type and size with pool size 1; the master and worker scratch disks are present iff their own SSD count is positive, with that count and their role's purchase option |
| DataprocResource.ComposedIgnoresWorkerInstances | internal/resources/google/dataproc_cluster.go:112-121 | changing the worker's or the preemptible worker's instance count never changes the components |
| DataprocResource.PreemptibleScratchFollowsWorker | internal/resources/google/dataproc_cluster.go:125-127 | the preemptible scratch disk is present iff the worker's SSD count is positive; it has the preemptible count and purchase option, and is emitted with 0 disks when only the worker has SSDs |
| DataprocResource.DataprocCluster.constructor | internal/resources/google/dataproc_cluster.go:17-60 | the descriptor holds the given address, region, instance fields and six role configs, with no usage set |
| DataprocResource.DataprocCluster.PopulateUsage | internal/resources/google/dataproc_cluster.go:72-74 | a usage entry under monthly_data_processed_gb sets that field; without one the field keeps its value; nothing else changes |
| DataprocResource.DataprocCluster.BuildResource | internal/resources/google/dataproc_cluster.go:79-134 | the resource is named by the address, carries the fixed usage schema (monthly_data_processed_gb, default 0, Float64), and holds the role groups in order: master compute with its instance count, worker and preemptible compute with quantity 1, boot disks with pool size 1, scratch disks gated as above; length 6 plus the scratch count |
| DataprocProvider.NewMasterConfig | internal/providers/terraform/google/dataproc_cluster.go:69-91 | machine type is the block's value when the key exists, else "e2-medium"; the purchase option is "preemptible" iff the flag reads true, else "on_demand", and never anything else; the instance count is num_instances, 0 when absent |
| DataprocProvider.NewDiskConfig | internal/providers/terraform/google/dataproc_cluster.go:93-112 | boot disk type is the block's value when it exists, else "pd-standard"; boot disk size likewise, else 100; the local SSD count is num_local_ssds, 0 when absent |
| DataprocProvider.AbsentBlockDefaults | internal/providers/terraform/google/dataproc_cluster.go:69-112 | an absent block still gives a complete config, made of the defaults |
| DataprocProvider.BeforeFirst | internal/providers/terraform/google/dataproc_cluster.go:26 | the first field of a split is a prefix of the input, contains no separator, and is followed by the separator unless it is the whole input |
| DataprocProvider.BeforeFirstUnique | internal/providers/terraform/google/dataproc_cluster.go:26 | those three properties determine the first field uniquely |
| DataprocProvider.InstanceTypeOf | internal/providers/terraform/google/dataproc_cluster.go:25-26 | the instance type is the prefix of sku_name up to its first "_" (all of it when there is none), and contains no "_" |
| DataprocProvider.UsageTypeOf | internal/providers/terraform/google/dataproc_cluster.go:29-32 | the usage type is "default" when the attribute is empty, otherwise its value; it is never empty |
| DataprocProvider.NewDescriptor | internal/providers/terraform/google/dataproc_cluster.go:20-63 | a fresh descriptor with the address, region, instance type, instance count and usage type, and each role's config extracted from its fixed block path; no usage set |
| DataprocProvider.NewDataprocCluster | internal/providers/terraform/google/dataproc_cluster.go:19-67 | the translated resource is named by the address, carries the usage schema, and its components are the composition of the six extracted configs, whatever the usage overlay |
| DataprocProvider.DefaultsWhenBlocksAbsent | internal/providers/terraform/google/dataproc_cluster.go:38-43 | with all six role blocks absent, the output is exactly six on-demand e2-medium compute and 100 GB pd-standard disk items (master quantity 0, workers 1), with no scratch disks |
| DataprocProvider.PreemptibleMasterPriced | internal/resources/google/dataproc_cluster.go:100-109 | a preemptible 3 x n2-standard-4 master with a 500 GB pd-ssd and 2 local SSDs yields those compute, disk and preemptible scratch items first |

## Left out

- The debug `fmt.Printf` calls in both files are I/O. The `staging_bucket` attribute is read only to print it, so it is left out too.
- The guest accelerators (`collectComputeGuestAccelerators`) are left out. That function is not part of this model, and `MasterConfig` has no accelerator field.
- The factory functions `computeCostDataProcComponent`, `computeDiskCostComponent` and `scratchDiskCostComponent` are defined elsewhere and are not part of this model. Each cost component is the record of the arguments passed to them, so the catalog filters, units and names they build are not modelled.
- `instanceCostComponent` and `dataProcessedCostComponent` are template placeholders whose only call sites are commented out. They never run.
- The registry item, and the golden-file test harness, which has no logic of its own.
- Decimal and floating point arithmetic. `BootDiskSize` is a `float64` in the source and an integer here, and its conversion from `int64` is taken as exact. `MonthlyDataProcessedGB` is a `real`. JSON numbers are integers.
- Integer width. The `int64` instance counts, sizes and SSD counts are unbounded integers here, so integer parsing cannot overflow and wrap.
- Nested path lookups in the attribute reader. Each role block is looked up by its full fixed path in a map of blocks. Lookups through arrays, and blocks repeated at one path, are not modelled.
- `PopulateUsage`: the reflection over struct tags is replaced by the one tagged field, `monthly_data_processed_gb`. A usage entry that is null is treated as absent. Coercing usage strings to numbers is not modelled.
- Attributes.GetString: a number's string form is taken to be its canonical decimal text. The reader returns the raw JSON text, which can differ (for example `1e2`).
