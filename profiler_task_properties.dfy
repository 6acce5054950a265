/**
 * Properties of the profiler task table: what the constructors store, which
 * rows carry which threshold and slow-instance count, the two derived flags,
 * the size and order of the value space, and the documented admission rule.
 */
module ProfilerTaskProperties {
  import opened Wrappers
  import opened ProfilerTasks
  import opened ProfilerTaskRows

  // ---------------------------------------------------------------------------
  // The constructors

  /** The two thresholds are 10 ms and 50 ms in nanoseconds. */
  lemma ThresholdNanos()
    ensures Make2(Some(TenMillis)).minDuration == 10_000_000
    ensures Make2(Some(FiftyMillis)).minDuration == 50_000_000
  {
  }

  /**
   * The shorter constructors delegate: the two-argument one is the three-argument
   * one with a count of 0, and the one-argument one adds a null threshold.
   */
  lemma ConstructorsDelegate(minDuration: Option<Threshold>)
    ensures Make2(minDuration) == Make(minDuration, 0)
    ensures Make1() == Make2(None) == Make(None, 0)
  {
  }

  // ---------------------------------------------------------------------------
  // Thresholds

  /** Every minimum duration is the sentinel or one of the two thresholds, so never below -1. */
  lemma MinDurationValues(t: ProfilerTask)
    ensures MinDuration(t) in {NO_THRESHOLD, 10_000_000, 50_000_000}
    ensures NO_THRESHOLD <= MinDuration(t) <= LONG_MAX
  {
    RowLimits(t);
  }

  /** Which rows carry which threshold, in both directions; the rest have none. */
  lemma ThresholdGroups(t: ProfilerTask)
    ensures MinDuration(t) == 10_000_000 <==> t in TEN_MILLIS_TASKS
    ensures MinDuration(t) == 50_000_000 <==> t in FIFTY_MILLIS_TASKS
    ensures MinDuration(t) == NO_THRESHOLD <==> t !in TEN_MILLIS_TASKS + FIFTY_MILLIS_TASKS
  {
    RowLimits(t);
  }

  // ---------------------------------------------------------------------------
  // Slowest instances

  /**
   * Counts are 0 or 30; a non-zero count plus the one element the heap holds
   * temporarily is 31 = 2^5 - 1, the size of a complete binary tree of height 5.
   */
  lemma SlowestCounts(t: ProfilerTask)
    ensures SlowestInstancesCount(t) == 0 || SlowestInstancesCount(t) == 30
    ensures CollectsSlowestInstances(t) <==> SlowestInstancesCount(t) != 0
    ensures CollectsSlowestInstances(t) ==> SlowestInstancesCount(t) + 1 == 31  // 2^5 - 1
  {
    RowLimits(t);
  }

  /** The rows whose slowest instances are collected, in both directions. */
  lemma CollectingTasks(t: ProfilerTask)
    ensures CollectsSlowestInstances(t) <==> t in SLOWEST_COLLECTING_TASKS
  {
    RowLimits(t);
  }

  // ---------------------------------------------------------------------------
  // VFS and Starlark flags

  /** The VFS flag holds of exactly the VFS_* rows, VFS_VMFS_* and VFS_GLOB included. */
  lemma VfsTasks(t: ProfilerTask)
    ensures IsVfs(t) <==> t in VFS_TASKS
  {
    RowFlags(t);
  }

  /** The Starlark flag holds of exactly the four interpreter rows. */
  lemma StarlarkTasks(t: ProfilerTask)
    ensures IsStarlark(t) <==> t in STARLARK_TASKS
  {
    RowFlags(t);
  }

  /** Being VFS and collecting slowest instances are independent. */
  lemma VfsIndependentOfCollecting()
    ensures IsVfs(VfsDelete) && !CollectsSlowestInstances(VfsDelete)
    ensures !IsVfs(LocalParse) && CollectsSlowestInstances(LocalParse)
    ensures IsVfs(VfsGlob) && MinDuration(VfsGlob) == NO_THRESHOLD && CollectsSlowestInstances(VfsGlob)
  {
    VfsDeleteRow();
    LocalParseRow();
    VfsGlobRow();
  }

  // ---------------------------------------------------------------------------
  // The value space

  lemma TaskCount()
    ensures TASK_COUNT == 49
    ensures Values()[TASK_COUNT - 1] == Unknown
  {
  }

  /** Every constant sits in values() at its ordinal, so values() lists them all. */
  lemma OrdinalIndexesValues(t: ProfilerTask)
    ensures Ordinal(t) < TASK_COUNT
    ensures Values()[Ordinal(t)] == t
    ensures t in Values()
  {
    RowOrder(t);
  }

  /** Reading values() at a position and taking the ordinal gives the position back. */
  lemma ValuesOrdinal(i: int)
    requires 0 <= i < TASK_COUNT
    ensures Ordinal(Values()[i]) == i
  {
  }

  /** No constant is listed twice, so TASK_COUNT is the number of distinct constants. */
  lemma ValuesDistinct(i: int, j: int)
    requires 0 <= i < TASK_COUNT && 0 <= j < TASK_COUNT && i != j
    ensures Values()[i] != Values()[j]
  {
    ValuesOrdinal(i);
    ValuesOrdinal(j);
  }

  /** UNKNOWN is the last value. */
  lemma UnknownIsLast(t: ProfilerTask)
    ensures Ordinal(t) <= Ordinal(Unknown) == TASK_COUNT - 1
    ensures Ordinal(t) == TASK_COUNT - 1 <==> t == Unknown
  {
  }

  // ---------------------------------------------------------------------------
  // Admission rule

  /** Without full data, a non-negative duration is recorded separately exactly when it reaches the threshold. */
  lemma AdmissionByThreshold(t: ProfilerTask, durationNanos: int)
    requires durationNanos >= 0
    ensures MinDuration(t) == NO_THRESHOLD ==> RecordedSeparately(t, durationNanos, false)
    ensures MinDuration(t) != NO_THRESHOLD ==>
      (RecordedSeparately(t, durationNanos, false) <==> durationNanos >= MinDuration(t))
  {
  }

  /** With full data every event is recorded separately. */
  lemma FullDataRecordsAll(t: ProfilerTask, durationNanos: int)
    ensures RecordedSeparately(t, durationNanos, true)
  {
  }

  /** A longer event is recorded whenever a shorter one of the same task is. */
  lemma AdmissionMonotone(t: ProfilerTask, shorter: int, longer: int, fullData: bool)
    requires shorter <= longer
    ensures RecordedSeparately(t, shorter, fullData) ==> RecordedSeparately(t, longer, fullData)
  {
  }

  /** A ten-millisecond task admits 15 ms and 10 ms events but folds a 5 ms one into its parent. */
  lemma AdmissionTenMillisExample()
    ensures !RecordedSeparately(ActionCheck, 5 * NANOS_PER_MILLI, false)
    ensures RecordedSeparately(ActionCheck, 15 * NANOS_PER_MILLI, false)
    ensures RecordedSeparately(ActionCheck, 10 * NANOS_PER_MILLI, false)
  {
  }
}
