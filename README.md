# ProfilerTask, modelled in Dafny

Bazel's profiler sorts every event it records into one of 49 task categories.
These are the constants of the `ProfilerTask` enum. Each category stores three values:

- a human-readable description;
- a minimum duration in nanoseconds, or -1 when it has no threshold. Without full profiler data, an event shorter than this is folded into its parent event instead of being recorded separately;
- how many of its slowest instances the profiler keeps, where 0 means none.

From these, the enum derives `collectsSlowestInstances()` from the count, `isVfs()` from the constant's name, and `isStarlark()` from the description.

The project has four files:

- `wrappers.dfy` (`Wrappers`): an `Option` type. It stands in for the nullable `Duration` argument.
- `profiler_task.dfy` (`ProfilerTasks`): the model itself. It contains:
  - the 49 constants, as a datatype in declaration order;
  - the two threshold constants `TEN_MILLIS` and `FIFTY_MILLIS`;
  - the three constructors: `Make` has three arguments, `Make2` two and `Make1` one;
  - the per-constant tables `Name`, `Description` and `LimitsOf`;
  - the accessors `MinDuration`, `SlowestInstancesCount`, `CollectsSlowestInstances`, `IsVfs` and `IsStarlark`;
  - `values()`, `ordinal()` and `TASK_COUNT`;
  - `RecordedSeparately`, the admission rule the class comment states: record an event separately only if it reaches the threshold, unless full data is being recorded.
- `profiler_task_rows.dfy` (`ProfilerTaskRows`): the facts about the table, proved a few rows at a time.
  - The dispatch lemmas `RowLimits`, `RowOrder` and `RowFlags` extend them to any constant.
  - For each row whose name does not start with `VFS`, or whose description does not start with `Starlark `, a per-row lemma (`PhaseRow`, `VfsGlobRow`, ...) names the character where they differ.
- `profiler_task_properties.dfy` (`ProfilerTaskProperties`): the properties, stated for any constant.

## Model

| member | source | states |
|---|---|---|
| ProfilerTasks.ToNanos | src/main/java/com/google/devtools/build/lib/profiler/ProfilerTask.java:77-79 | A threshold in nanoseconds is at least one millisecond and a whole number of milliseconds, namely the threshold's millisecond count |
| ProfilerTasks.Make | src/main/java/com/google/devtools/build/lib/profiler/ProfilerTask.java:97-102 | The stored minimum duration is -1 exactly when the threshold is null. Otherwise it is exactly the threshold's toNanos(), which is positive and converts back to the threshold's milliseconds. The count is stored as given |
| ProfilerTasks.Make2 | src/main/java/com/google/devtools/build/lib/profiler/ProfilerTask.java:104-106 | The two-argument constructor stores the threshold as the three-argument one does, with a count of 0 |
| ProfilerTasks.Make1 | src/main/java/com/google/devtools/build/lib/profiler/ProfilerTask.java:108-110 | The one-argument constructor stores no threshold (-1) and a count of 0 |
| ProfilerTaskProperties.ThresholdNanos | src/main/java/com/google/devtools/build/lib/profiler/ProfilerTask.java:77-79 | TEN_MILLIS is stored as 10,000,000 ns and FIFTY_MILLIS as 50,000,000 ns |
| ProfilerTaskProperties.ConstructorsDelegate | src/main/java/com/google/devtools/build/lib/profiler/ProfilerTask.java:104-110 | For every threshold, the two-argument constructor gives what the three-argument one gives with a count of 0. The one-argument constructor equals both given a null threshold and a count of 0 |
| ProfilerTaskProperties.MinDurationValues | src/main/java/com/google/devtools/build/lib/profiler/ProfilerTask.java:24-75 | Every constant's minimum duration is -1, 10,000,000 or 50,000,000. It therefore lies between -1 and the largest Java long |
| ProfilerTaskProperties.ThresholdGroups | src/main/java/com/google/devtools/build/lib/profiler/ProfilerTask.java:24-75 | A constant has the 10 ms threshold iff it is one of the 17 TEN_MILLIS rows, and the 50 ms threshold iff it is one of the 6 FIFTY_MILLIS rows. It has none iff it is in neither group |
| ProfilerTaskProperties.SlowestCounts | src/main/java/com/google/devtools/build/lib/profiler/ProfilerTask.java:36-38 | Every count is 0 or 30. A constant collects slowest instances iff its count is non-zero. A non-zero count plus the heap's one temporary element is 31 = 2^5 - 1 |
| ProfilerTaskProperties.CollectingTasks | src/main/java/com/google/devtools/build/lib/profiler/ProfilerTask.java:112-115 | Slowest instances are collected for exactly ten constants: LOCAL_PARSE and the nine VFS rows declared with 30 |
| ProfilerTaskProperties.VfsTasks | src/main/java/com/google/devtools/build/lib/profiler/ProfilerTask.java:101 | The VFS flag, which holds when the name starts with "VFS", holds for exactly the 13 VFS_* constants, VFS_GLOB and VFS_VMFS_* included |
| ProfilerTaskProperties.StarlarkTasks | src/main/java/com/google/devtools/build/lib/profiler/ProfilerTask.java:121-123 | The Starlark flag, which holds when the description starts with "Starlark ", holds for exactly the four STARLARK_* constants |
| ProfilerTaskProperties.VfsIndependentOfCollecting | src/main/java/com/google/devtools/build/lib/profiler/ProfilerTask.java:38-54 | VFS_DELETE is VFS but keeps no slow instances. LOCAL_PARSE keeps them but is not VFS. VFS_GLOB keeps them with no threshold |
| ProfilerTaskProperties.TaskCount | src/main/java/com/google/devtools/build/lib/profiler/ProfilerTask.java:82-83 | TASK_COUNT, the length of values(), is 49, and the last value is UNKNOWN |
| ProfilerTaskProperties.OrdinalIndexesValues | src/main/java/com/google/devtools/build/lib/profiler/ProfilerTask.java:24-75 | Every ordinal is below TASK_COUNT, and values() holds each constant at its ordinal, so values() lists every constant |
| ProfilerTaskProperties.ValuesOrdinal | src/main/java/com/google/devtools/build/lib/profiler/ProfilerTask.java:24-75 | The ordinal of the value at position i of values() is i |
| ProfilerTaskProperties.ValuesDistinct | src/main/java/com/google/devtools/build/lib/profiler/ProfilerTask.java:82-83 | values() has no repeated constant, so TASK_COUNT counts distinct categories |
| ProfilerTaskProperties.UnknownIsLast | src/main/java/com/google/devtools/build/lib/profiler/ProfilerTask.java:75 | UNKNOWN has the largest ordinal, TASK_COUNT - 1, and is the only constant with it |
| ProfilerTaskProperties.AdmissionByThreshold | src/main/java/com/google/devtools/build/lib/profiler/ProfilerTask.java:87-91 | Without full data, a non-negative duration is recorded separately iff it reaches the threshold. It is always recorded separately when there is no threshold |
| ProfilerTaskProperties.FullDataRecordsAll | src/main/java/com/google/devtools/build/lib/profiler/ProfilerTask.java:87-90 | With full profiler data, every event is recorded separately |
| ProfilerTaskProperties.AdmissionMonotone | src/main/java/com/google/devtools/build/lib/profiler/ProfilerTask.java:19-21 | If an event of a task is recorded separately, so is any longer event of the same task |
| ProfilerTaskProperties.AdmissionTenMillisExample | src/main/java/com/google/devtools/build/lib/profiler/ProfilerTask.java:26 | ACTION_CHECK (10 ms) folds a 5 ms event into its parent but records 10 ms and 15 ms events separately |
| ProfilerTaskRows.RowLimits | src/main/java/com/google/devtools/build/lib/profiler/ProfilerTask.java:24-75 | Every row's threshold follows from its membership in the TEN_MILLIS or FIFTY_MILLIS group, and its count from its membership in the group declared with 30 |
| ProfilerTaskRows.RowOrder | src/main/java/com/google/devtools/build/lib/profiler/ProfilerTask.java:24-75 | Every constant is the constant found at its own position in declaration order |
| ProfilerTaskRows.RowFlags | src/main/java/com/google/devtools/build/lib/profiler/ProfilerTask.java:117-123 | In every row, the VFS flag marks exactly the VFS group and the Starlark flag exactly the Starlark group |

## Left out

- The slowest-instance heap and top-K tracker, the recording of events and their aggregation into parent events, and the profiler session are not part of this model. None of that code is in `ProfilerTask.java`; only the admission rule its comments state is modelled, as `RecordedSeparately`.
- `--record_full_profiler_data` appears only as the boolean `fullData` argument of `RecordedSeparately`. The flag plumbing is not part of this model.
- `java.time.Duration` is not modelled in general. A threshold is one of the two constants, and `toNanos` is their millisecond count times 1,000,000. Its overflow for huge durations cannot arise from these constants.
- `ProfilerTasks.Make` builds only the two numeric fields.
  - The constructor's description argument lives in the `Description` table.
  - The `vfs` field, which the constructor computes from `name()`, is computed on demand by `IsVfs` from the `Name` table.
  - Both are fixed per constant, so every accessor returns the same value as the stored field.
- `name()`, `ordinal()` and `values()` are explicit tables (`Name`, `Ordinal`, `FromOrdinal`/`Values`) instead of the JVM's enum machinery.
- Java's 32-bit `int` and 64-bit `long` are unbounded integers here. Every stored value is proved to lie in range, so no wrap-around can occur: `MinDurationValues` bounds the `long` minimum duration and `SlowestCounts` the `int` count (0 or 30).
- Thread safety is not modelled. The enum is immutable.
