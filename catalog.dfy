/**
 * The metrics the documentation generator lists although the default
 * scrape never exposes them: thirteen written-in entries, then one entry
 * per recording rule.
 */
module StaticCatalog {
  import opened GoStrings
  import opened Metrics

  /** The names of the five live-migration progress gauges, constants of the
    * domain statistics collector. */
  datatype MigrationMetricNames = MigrationMetricNames(
    dataProcessed: string,
    dataRemaining: string,
    dirtyMemoryRate: string,
    memoryTransferRate: string,
    diskTransferRate: string)

  /** A recording rule: the metric it records, its description and its value
    * type label. */
  datatype RecordingRule = RecordingRule(record: string, description: string, mType: string)

  // The descriptions of the written-in entries.
  const DataProcessedHelp: string :=
    "The total Guest OS data processed and migrated to the new VM."
  const DataRemainingHelp: string :=
    "The remaining guest OS data to be migrated to the new VM."
  const DirtyMemoryRateHelp: string :=
    "The rate of memory being dirty in the Guest OS."
  const MemoryTransferRateHelp: string :=
    "The rate at which the memory is being transferred."
  const DiskTransferRateHelp: string :=
    "The rate at which the disk is being transferred."
  const PhaseCountHelp: string :=
    "Sum of VMIs per phase and node. `phase` can be one of the following: [`Pending`, `Scheduling`, `Scheduled`, `Running`, `Succeeded`, `Failed`, `Unknown`]."
  const NonEvictableHelp: string :=
    "Indication for a VirtualMachine that its eviction strategy is set to Live Migration but is not migratable."
  const MigrationPhaseTransitionFromCreationHelp: string :=
    "Histogram of VM migration phase transitions duration from creation time in seconds."
  const PhaseTransitionHelp: string :=
    "Histogram of VM phase transitions duration between different phases in seconds."
  const PhaseTransitionFromCreationHelp: string :=
    "Histogram of VM phase transitions duration from creation time in seconds."
  const PhaseTransitionFromDeletionHelp: string :=
    "Histogram of VM phase transitions duration from deletion time in seconds."
  const OperatorLeadingHelp: string :=
    "Indication for an operating virt-operator."
  const OperatorReadyHelp: string :=
    "Indication for a virt-operator that is ready to take the lead."

  // The names of the written-in entries that are not collector constants.
  const PhaseCountName: string := "kubevirt_vmi_phase_count"
  const NonEvictableName: string := "kubevirt_vmi_non_evictable"
  const MigrationPhaseTransitionFromCreationName: string := "kubevirt_vmi_migration_phase_transition_time_from_creation_seconds"
  const PhaseTransitionName: string := "kubevirt_vmi_phase_transition_time_seconds"
  const PhaseTransitionFromCreationName: string := "kubevirt_vmi_phase_transition_time_from_creation_seconds"
  const PhaseTransitionFromDeletionName: string := "kubevirt_vmi_phase_transition_time_from_deletion_seconds"
  const OperatorLeadingName: string := "kubevirt_virt_operator_leading_status"
  const OperatorReadyName: string := "kubevirt_virt_operator_ready_status"

  /** The thirteen entries written out in the generator, in their order. */
  function LiteralMetrics(names: MigrationMetricNames): (r: seq<Metric>)
    ensures |r| == 13
    ensures forall i :: 0 <= i < 7 || 11 <= i < 13 ==> r[i].mType == "Gauge"
    ensures forall i :: 7 <= i < 11 ==> r[i].mType == "Histogram"
  {
    [ Metric(names.dataProcessed, DataProcessedHelp, "Gauge"),
      Metric(names.dataRemaining, DataRemainingHelp, "Gauge"),
      Metric(names.dirtyMemoryRate, DirtyMemoryRateHelp, "Gauge"),
      Metric(names.memoryTransferRate, MemoryTransferRateHelp, "Gauge"),
      Metric(names.diskTransferRate, DiskTransferRateHelp, "Gauge"),
      Metric(PhaseCountName, PhaseCountHelp, "Gauge"),
      Metric(NonEvictableName, NonEvictableHelp, "Gauge"),
      Metric(MigrationPhaseTransitionFromCreationName,
             MigrationPhaseTransitionFromCreationHelp, "Histogram"),
      Metric(PhaseTransitionName, PhaseTransitionHelp, "Histogram"),
      Metric(PhaseTransitionFromCreationName, PhaseTransitionFromCreationHelp, "Histogram"),
      Metric(PhaseTransitionFromDeletionName, PhaseTransitionFromDeletionHelp, "Histogram"),
      Metric(OperatorLeadingName, OperatorLeadingHelp, "Gauge"),
      Metric(OperatorReadyName, OperatorReadyHelp, "Gauge")
    ]
  }

  /** The entry a recording rule contributes: its record name, its
    * description and its type label title-cased. */
  function RuleMetric(rule: RecordingRule): Metric
  {
    Metric(rule.record, rule.description, Title(rule.mType))
  }

  /** One entry per rule, in rule order. */
  function RuleMetrics(rules: seq<RecordingRule>): (r: seq<Metric>)
    ensures |r| == |rules|
    ensures forall i :: 0 <= i < |rules| ==> r[i] == RuleMetric(rules[i])
  {
    if rules == [] then [] else [RuleMetric(rules[0])] + RuleMetrics(rules[1..])
  }

  /** `getMetricsNotIncludeInEndpointByDefault`: the thirteen written-in
    * entries in order, then one entry per recording rule in rule order. */
  method GetMetricsNotIncludeInEndpointByDefault(names: MigrationMetricNames, rules: seq<RecordingRule>)
    returns (metrics: seq<Metric>)
    ensures |metrics| == 13 + |rules|
    ensures metrics[..13] == LiteralMetrics(names)
    ensures metrics[13..] == RuleMetrics(rules)
    ensures metrics == LiteralMetrics(names) + RuleMetrics(rules)
  {
    metrics := LiteralMetrics(names);
    for i := 0 to |rules|
      invariant |metrics| == 13 + i
      invariant metrics[..13] == LiteralMetrics(names)
      invariant forall k :: 0 <= k < i ==> metrics[13 + k] == RuleMetric(rules[k])
    {
      metrics := metrics + [RuleMetric(rules[i])];
    }
  }

  /** The first five written-in entries are the migration progress gauges. */
  lemma MigrationGaugesListed(names: MigrationMetricNames)
    ensures forall k :: 0 <= k < 5 ==> LiteralMetrics(names)[k].mType == "Gauge"
    ensures [LiteralMetrics(names)[0].name, LiteralMetrics(names)[1].name, LiteralMetrics(names)[2].name,
             LiteralMetrics(names)[3].name, LiteralMetrics(names)[4].name]
         == [names.dataProcessed, names.dataRemaining, names.dirtyMemoryRate,
             names.memoryTransferRate, names.diskTransferRate]
  {
  }
}
