/**
 * The profiler's closed table of task categories. Every category carries a
 * human-readable description, a minimum duration in nanoseconds below which an
 * event is folded into its parent instead of being recorded on its own (-1 when
 * there is no such threshold), and how many of its slowest instances the
 * profiler keeps (0 for none). Three flags are derived from these stored values.
 */
module ProfilerTasks {
  import opened Wrappers

  /** The 49 task categories, in declaration order. */
  datatype ProfilerTask =
    | Phase
    | Action
    | ActionCheck
    | ActionLock
    | ActionRelease
    | ActionUpdate
    | ActionComplete
    | Info
    | CreatePackage
    | RemoteExecution
    | LocalExecution
    | Scanner
    | LocalParse
    | UploadTime
    | ProcessTime
    | RemoteQueue
    | RemoteSetup
    | Fetch
    | VfsStat
    | VfsDir
    | VfsReadlink
    | VfsMd5
    | VfsXattr
    | VfsDelete
    | VfsOpen
    | VfsRead
    | VfsWrite
    | VfsGlob
    | VfsVmfsStat
    | VfsVmfsDir
    | VfsVmfsRead
    | Wait
    | ThreadName
    | SkyframeEval
    | SkyFunction
    | CriticalPath
    | CriticalPathComponent
    | HandleGcNotification
    | LocalCpuUsage
    | ActionCounts
    | StarlarkParser
    | StarlarkUserFn
    | StarlarkBuiltinFn
    | StarlarkUserCompiledFn
    | ActionFsStaging
    | RemoteCacheCheck
    | RemoteDownload
    | RemoteNetwork
    | Unknown

  /** The two duration constants the table uses as thresholds. */
  datatype Threshold = TenMillis | FiftyMillis

  /**
   * The two numeric fields a constructor stores: the minimum duration in
   * nanoseconds (a Java long; -1 when there is no threshold) and how many of the
   * slowest instances to keep (a Java int; 0 keeps none).
   */
  datatype Limits = Limits(minDuration: int, slowestInstancesCount: int)

  const NANOS_PER_MILLI: nat := 1_000_000

  /** Largest value of a Java long, the type of the stored minimum duration. */
  const LONG_MAX: int := 0x7FFF_FFFF_FFFF_FFFF

  /** Stored in place of a missing threshold. */
  const NO_THRESHOLD: int := -1

  /** String.startsWith. */
  predicate StartsWith(s: string, prefix: string) {
    prefix <= s
  }

  function Millis(th: Threshold): nat {
    match th
    case TenMillis => 10
    case FiftyMillis => 50
  }

  /** Duration.ofMillis(Millis(th)).toNanos(): a positive whole number of milliseconds in nanoseconds. */
  function ToNanos(th: Threshold): (n: nat)
    ensures n >= NANOS_PER_MILLI
    ensures n / NANOS_PER_MILLI == Millis(th) && n % NANOS_PER_MILLI == 0
  {
    Millis(th) * NANOS_PER_MILLI
  }

  /**
   * The three-argument constructor: a missing threshold is stored as -1, a
   * present one in nanoseconds, and the count as given.
   */
  function Make(minDuration: Option<Threshold>, slowestInstanceCount: int): (l: Limits)
    ensures minDuration.None? <==> l.minDuration == NO_THRESHOLD
    ensures minDuration.Some? ==> l.minDuration > 0 && l.minDuration / NANOS_PER_MILLI == Millis(minDuration.value)
    ensures minDuration.Some? ==> l.minDuration == ToNanos(minDuration.value)
    ensures l.slowestInstancesCount == slowestInstanceCount
  {
    Limits(
      match minDuration
      case None => NO_THRESHOLD
      case Some(th) => ToNanos(th),
      slowestInstanceCount)
  }

  /** The two-argument constructor delegates with a count of 0. */
  function Make2(minDuration: Option<Threshold>): (l: Limits)
    ensures minDuration.None? <==> l.minDuration == NO_THRESHOLD
    ensures minDuration.Some? ==> l.minDuration > 0 && l.minDuration / NANOS_PER_MILLI == Millis(minDuration.value)
    ensures minDuration.Some? ==> l.minDuration == ToNanos(minDuration.value)
    ensures l.slowestInstancesCount == 0
  {
    Make(minDuration, 0)
  }

  /** The one-argument constructor delegates with no threshold and a count of 0. */
  function Make1(): (l: Limits)
    ensures l.minDuration == NO_THRESHOLD && l.slowestInstancesCount == 0
  {
    Make(None, 0)
  }

  /** The enum constant's identifier, as name() returns it. */
  function Name(t: ProfilerTask): string {
    match t
    case Phase => "PHASE"
    case Action => "ACTION"
    case ActionCheck => "ACTION_CHECK"
    case ActionLock => "ACTION_LOCK"
    case ActionRelease => "ACTION_RELEASE"
    case ActionUpdate => "ACTION_UPDATE"
    case ActionComplete => "ACTION_COMPLETE"
    case Info => "INFO"
    case CreatePackage => "CREATE_PACKAGE"
    case RemoteExecution => "REMOTE_EXECUTION"
    case LocalExecution => "LOCAL_EXECUTION"
    case Scanner => "SCANNER"
    case LocalParse => "LOCAL_PARSE"
    case UploadTime => "UPLOAD_TIME"
    case ProcessTime => "PROCESS_TIME"
    case RemoteQueue => "REMOTE_QUEUE"
    case RemoteSetup => "REMOTE_SETUP"
    case Fetch => "FETCH"
    case VfsStat => "VFS_STAT"
    case VfsDir => "VFS_DIR"
    case VfsReadlink => "VFS_READLINK"
    case VfsMd5 => "VFS_MD5"
    case VfsXattr => "VFS_XATTR"
    case VfsDelete => "VFS_DELETE"
    case VfsOpen => "VFS_OPEN"
    case VfsRead => "VFS_READ"
    case VfsWrite => "VFS_WRITE"
    case VfsGlob => "VFS_GLOB"
    case VfsVmfsStat => "VFS_VMFS_STAT"
    case VfsVmfsDir => "VFS_VMFS_DIR"
    case VfsVmfsRead => "VFS_VMFS_READ"
    case Wait => "WAIT"
    case ThreadName => "THREAD_NAME"
    case SkyframeEval => "SKYFRAME_EVAL"
    case SkyFunction => "SKYFUNCTION"
    case CriticalPath => "CRITICAL_PATH"
    case CriticalPathComponent => "CRITICAL_PATH_COMPONENT"
    case HandleGcNotification => "HANDLE_GC_NOTIFICATION"
    case LocalCpuUsage => "LOCAL_CPU_USAGE"
    case ActionCounts => "ACTION_COUNTS"
    case StarlarkParser => "STARLARK_PARSER"
    case StarlarkUserFn => "STARLARK_USER_FN"
    case StarlarkBuiltinFn => "STARLARK_BUILTIN_FN"
    case StarlarkUserCompiledFn => "STARLARK_USER_COMPILED_FN"
    case ActionFsStaging => "ACTION_FS_STAGING"
    case RemoteCacheCheck => "REMOTE_CACHE_CHECK"
    case RemoteDownload => "REMOTE_DOWNLOAD"
    case RemoteNetwork => "REMOTE_NETWORK"
    case Unknown => "UNKNOWN"
  }

  /** The description each constant passes to its constructor. */
  function Description(t: ProfilerTask): string {
    match t
    case Phase => "build phase marker"
    case Action => "action processing"
    case ActionCheck => "action dependency checking"
    case ActionLock => "action resource lock"
    case ActionRelease => "action resource release"
    case ActionUpdate => "update action information"
    case ActionComplete => "complete action execution"
    case Info => "general information"
    case CreatePackage => "package creation"
    case RemoteExecution => "remote action execution"
    case LocalExecution => "local action execution"
    case Scanner => "include scanner"
    case LocalParse => "Local parse to prepare for remote execution"
    case UploadTime => "Remote execution upload time"
    case ProcessTime => "Remote execution process wall time"
    case RemoteQueue => "Remote execution queuing time"
    case RemoteSetup => "Remote execution setup"
    case Fetch => "Remote execution file fetching"
    case VfsStat => "VFS stat"
    case VfsDir => "VFS readdir"
    case VfsReadlink => "VFS readlink"
    case VfsMd5 => "VFS md5"
    case VfsXattr => "VFS xattr"
    case VfsDelete => "VFS delete"
    case VfsOpen => "VFS open"
    case VfsRead => "VFS read"
    case VfsWrite => "VFS write"
    case VfsGlob => "globbing"
    case VfsVmfsStat => "VMFS stat"
    case VfsVmfsDir => "VMFS readdir"
    case VfsVmfsRead => "VMFS read"
    case Wait => "thread wait"
    case ThreadName => "thread name"
    case SkyframeEval => "skyframe evaluator"
    case SkyFunction => "skyfunction"
    case CriticalPath => "critical path"
    case CriticalPathComponent => "critical path component"
    case HandleGcNotification => "gc notification"
    case LocalCpuUsage => "cpu counters"
    case ActionCounts => "action counters"
    case StarlarkParser => "Starlark Parser"
    case StarlarkUserFn => "Starlark user function call"
    case StarlarkBuiltinFn => "Starlark builtin function call"
    case StarlarkUserCompiledFn => "Starlark compiled user function call"
    case ActionFsStaging => "Staging per-action file system"
    case RemoteCacheCheck => "remote action cache check"
    case RemoteDownload => "remote output download"
    case RemoteNetwork => "remote network"
    case Unknown => "Unknown event"
  }

  /** What each constant's constructor call stores: which constructor it calls, with which threshold and count. */
  function LimitsOf(t: ProfilerTask): Limits {
    match t
    case Phase => Make1()
    case Action => Make1()
    case ActionCheck => Make2(Some(TenMillis))
    case ActionLock => Make2(Some(TenMillis))
    case ActionRelease => Make2(Some(TenMillis))
    case ActionUpdate => Make2(Some(TenMillis))
    case ActionComplete => Make1()
    case Info => Make1()
    case CreatePackage => Make1()
    case RemoteExecution => Make1()
    case LocalExecution => Make1()
    case Scanner => Make1()
    case LocalParse => Make(Some(FiftyMillis), 30)
    case UploadTime => Make2(Some(FiftyMillis))
    case ProcessTime => Make2(Some(FiftyMillis))
    case RemoteQueue => Make2(Some(FiftyMillis))
    case RemoteSetup => Make2(Some(FiftyMillis))
    case Fetch => Make2(Some(FiftyMillis))
    case VfsStat => Make(Some(TenMillis), 30)
    case VfsDir => Make(Some(TenMillis), 30)
    case VfsReadlink => Make(Some(TenMillis), 30)
    case VfsMd5 => Make(Some(TenMillis), 30)
    case VfsXattr => Make(Some(TenMillis), 30)
    case VfsDelete => Make2(Some(TenMillis))
    case VfsOpen => Make(Some(TenMillis), 30)
    case VfsRead => Make(Some(TenMillis), 30)
    case VfsWrite => Make(Some(TenMillis), 30)
    case VfsGlob => Make(None, 30)
    case VfsVmfsStat => Make2(Some(TenMillis))
    case VfsVmfsDir => Make2(Some(TenMillis))
    case VfsVmfsRead => Make2(Some(TenMillis))
    case Wait => Make2(Some(TenMillis))
    case ThreadName => Make1()
    case SkyframeEval => Make1()
    case SkyFunction => Make1()
    case CriticalPath => Make1()
    case CriticalPathComponent => Make1()
    case HandleGcNotification => Make1()
    case LocalCpuUsage => Make1()
    case ActionCounts => Make1()
    case StarlarkParser => Make1()
    case StarlarkUserFn => Make1()
    case StarlarkBuiltinFn => Make1()
    case StarlarkUserCompiledFn => Make1()
    case ActionFsStaging => Make1()
    case RemoteCacheCheck => Make1()
    case RemoteDownload => Make1()
    case RemoteNetwork => Make1()
    case Unknown => Make1()
  }

  /** Threshold for recording an event of this category separately, in nanoseconds; -1 for none. */
  function MinDuration(t: ProfilerTask): int { LimitsOf(t).minDuration }

  /** How many of the slowest instances to keep; 0 keeps none. */
  function SlowestInstancesCount(t: ProfilerTask): int { LimitsOf(t).slowestInstancesCount }

  /** Whether the profiler collects the slowest instances of this task. */
  predicate CollectsSlowestInstances(t: ProfilerTask) { SlowestInstancesCount(t) > 0 }

  /** True if the category records VFS operations: fixed by the constant's name. */
  predicate IsVfs(t: ProfilerTask) { StartsWith(Name(t), "VFS") }

  /** True for the interpreter tasks: fixed by the description. */
  predicate IsStarlark(t: ProfilerTask) { StartsWith(Description(t), "Starlark ") }

  /** The constant at a position in declaration order. */
  function FromOrdinal(i: nat): ProfilerTask
    requires i < 49
  {
    match i
    case 0 => Phase
    case 1 => Action
    case 2 => ActionCheck
    case 3 => ActionLock
    case 4 => ActionRelease
    case 5 => ActionUpdate
    case 6 => ActionComplete
    case 7 => Info
    case 8 => CreatePackage
    case 9 => RemoteExecution
    case 10 => LocalExecution
    case 11 => Scanner
    case 12 => LocalParse
    case 13 => UploadTime
    case 14 => ProcessTime
    case 15 => RemoteQueue
    case 16 => RemoteSetup
    case 17 => Fetch
    case 18 => VfsStat
    case 19 => VfsDir
    case 20 => VfsReadlink
    case 21 => VfsMd5
    case 22 => VfsXattr
    case 23 => VfsDelete
    case 24 => VfsOpen
    case 25 => VfsRead
    case 26 => VfsWrite
    case 27 => VfsGlob
    case 28 => VfsVmfsStat
    case 29 => VfsVmfsDir
    case 30 => VfsVmfsRead
    case 31 => Wait
    case 32 => ThreadName
    case 33 => SkyframeEval
    case 34 => SkyFunction
    case 35 => CriticalPath
    case 36 => CriticalPathComponent
    case 37 => HandleGcNotification
    case 38 => LocalCpuUsage
    case 39 => ActionCounts
    case 40 => StarlarkParser
    case 41 => StarlarkUserFn
    case 42 => StarlarkBuiltinFn
    case 43 => StarlarkUserCompiledFn
    case 44 => ActionFsStaging
    case 45 => RemoteCacheCheck
    case 46 => RemoteDownload
    case 47 => RemoteNetwork
    case _ => Unknown
  }

  /** values(): every constant, in declaration order. */
  function Values(): seq<ProfilerTask> {
    seq(49, i requires 0 <= i < 49 => FromOrdinal(i))
  }

  /** Size of the ProfilerTask value space. */
  const TASK_COUNT: nat := |Values()|

  /** ordinal(): the constant's position in declaration order. */
  function Ordinal(t: ProfilerTask): nat {
    match t
    case Phase => 0
    case Action => 1
    case ActionCheck => 2
    case ActionLock => 3
    case ActionRelease => 4
    case ActionUpdate => 5
    case ActionComplete => 6
    case Info => 7
    case CreatePackage => 8
    case RemoteExecution => 9
    case LocalExecution => 10
    case Scanner => 11
    case LocalParse => 12
    case UploadTime => 13
    case ProcessTime => 14
    case RemoteQueue => 15
    case RemoteSetup => 16
    case Fetch => 17
    case VfsStat => 18
    case VfsDir => 19
    case VfsReadlink => 20
    case VfsMd5 => 21
    case VfsXattr => 22
    case VfsDelete => 23
    case VfsOpen => 24
    case VfsRead => 25
    case VfsWrite => 26
    case VfsGlob => 27
    case VfsVmfsStat => 28
    case VfsVmfsDir => 29
    case VfsVmfsRead => 30
    case Wait => 31
    case ThreadName => 32
    case SkyframeEval => 33
    case SkyFunction => 34
    case CriticalPath => 35
    case CriticalPathComponent => 36
    case HandleGcNotification => 37
    case LocalCpuUsage => 38
    case ActionCounts => 39
    case StarlarkParser => 40
    case StarlarkUserFn => 41
    case StarlarkBuiltinFn => 42
    case StarlarkUserCompiledFn => 43
    case ActionFsStaging => 44
    case RemoteCacheCheck => 45
    case RemoteDownload => 46
    case RemoteNetwork => 47
    case Unknown => 48
  }

  /**
   * The documented admission rule: an event is recorded as a separate event only
   * if its duration reaches its category's minimum duration, unless full profiler
   * data is being recorded.
   */
  predicate RecordedSeparately(t: ProfilerTask, durationNanos: int, fullData: bool) {
    fullData || durationNanos >= MinDuration(t)
  }
}
