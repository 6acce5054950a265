/**
 * The ProfilerTask table read row by row. Each fact about an arbitrary constant is proved
 * for a few consecutive rows at a time (a lemma whose precondition names those
 * rows), and a dispatch lemma hands any task to the lemma for its rows. Keeping
 * each proof to a few rows keeps every proof obligation small.
 */
module ProfilerTaskRows {
  import opened ProfilerTasks

  /** The rows whose constant name starts with VFS. */
  const VFS_TASKS: set<ProfilerTask> :=
    {VfsStat, VfsDir, VfsReadlink, VfsMd5, VfsXattr, VfsDelete, VfsOpen, VfsRead, VfsWrite,
     VfsGlob, VfsVmfsStat, VfsVmfsDir, VfsVmfsRead}

  /** The interpreter rows. */
  const STARLARK_TASKS: set<ProfilerTask> :=
    {StarlarkParser, StarlarkUserFn, StarlarkBuiltinFn, StarlarkUserCompiledFn}

  /** The rows declared with Threshold.TEN_MILLIS. */
  const TEN_MILLIS_TASKS: set<ProfilerTask> :=
    {ActionCheck, ActionLock, ActionRelease, ActionUpdate, VfsStat, VfsDir, VfsReadlink, VfsMd5,
     VfsXattr, VfsDelete, VfsOpen, VfsRead, VfsWrite, VfsVmfsStat, VfsVmfsDir, VfsVmfsRead, Wait}

  /** The rows declared with Threshold.FIFTY_MILLIS. */
  const FIFTY_MILLIS_TASKS: set<ProfilerTask> :=
    {LocalParse, UploadTime, ProcessTime, RemoteQueue, RemoteSetup, Fetch}

  /** The rows declared with a slow-instance count of 30. */
  const SLOWEST_COLLECTING_TASKS: set<ProfilerTask> :=
    {LocalParse, VfsStat, VfsDir, VfsReadlink, VfsMd5, VfsXattr, VfsOpen, VfsRead, VfsWrite, VfsGlob}

  // ---------------------------------------------------------------------------
  // Threshold and slow-instance count

  /** PHASE, ACTION, ACTION_CHECK. */
  lemma PhaseGroupLimits(t: ProfilerTask)
    requires t in {Phase, Action, ActionCheck}
    ensures MinDuration(t) ==
      if t in TEN_MILLIS_TASKS then 10_000_000
      else if t in FIFTY_MILLIS_TASKS then 50_000_000
      else NO_THRESHOLD
    ensures SlowestInstancesCount(t) == if t in SLOWEST_COLLECTING_TASKS then 30 else 0
  {
  }

  /** ACTION_LOCK, ACTION_RELEASE, ACTION_UPDATE. */
  lemma ActionLockGroupLimits(t: ProfilerTask)
    requires t in {ActionLock, ActionRelease, ActionUpdate}
    ensures MinDuration(t) ==
      if t in TEN_MILLIS_TASKS then 10_000_000
      else if t in FIFTY_MILLIS_TASKS then 50_000_000
      else NO_THRESHOLD
    ensures SlowestInstancesCount(t) == if t in SLOWEST_COLLECTING_TASKS then 30 else 0
  {
  }

  /** ACTION_COMPLETE, INFO, CREATE_PACKAGE. */
  lemma ActionCompleteGroupLimits(t: ProfilerTask)
    requires t in {ActionComplete, Info, CreatePackage}
    ensures MinDuration(t) ==
      if t in TEN_MILLIS_TASKS then 10_000_000
      else if t in FIFTY_MILLIS_TASKS then 50_000_000
      else NO_THRESHOLD
    ensures SlowestInstancesCount(t) == if t in SLOWEST_COLLECTING_TASKS then 30 else 0
  {
  }

  /** REMOTE_EXECUTION, LOCAL_EXECUTION, SCANNER. */
  lemma RemoteExecutionGroupLimits(t: ProfilerTask)
    requires t in {RemoteExecution, LocalExecution, Scanner}
    ensures MinDuration(t) ==
      if t in TEN_MILLIS_TASKS then 10_000_000
      else if t in FIFTY_MILLIS_TASKS then 50_000_000
      else NO_THRESHOLD
    ensures SlowestInstancesCount(t) == if t in SLOWEST_COLLECTING_TASKS then 30 else 0
  {
  }

  /** LOCAL_PARSE, UPLOAD_TIME, PROCESS_TIME. */
  lemma LocalParseGroupLimits(t: ProfilerTask)
    requires t in {LocalParse, UploadTime, ProcessTime}
    ensures MinDuration(t) ==
      if t in TEN_MILLIS_TASKS then 10_000_000
      else if t in FIFTY_MILLIS_TASKS then 50_000_000
      else NO_THRESHOLD
    ensures SlowestInstancesCount(t) == if t in SLOWEST_COLLECTING_TASKS then 30 else 0
  {
  }

  /** REMOTE_QUEUE, REMOTE_SETUP, FETCH. */
  lemma RemoteQueueGroupLimits(t: ProfilerTask)
    requires t in {RemoteQueue, RemoteSetup, Fetch}
    ensures MinDuration(t) ==
      if t in TEN_MILLIS_TASKS then 10_000_000
      else if t in FIFTY_MILLIS_TASKS then 50_000_000
      else NO_THRESHOLD
    ensures SlowestInstancesCount(t) == if t in SLOWEST_COLLECTING_TASKS then 30 else 0
  {
  }

  /** VFS_STAT, VFS_DIR, VFS_READLINK. */
  lemma VfsStatGroupLimits(t: ProfilerTask)
    requires t in {VfsStat, VfsDir, VfsReadlink}
    ensures MinDuration(t) ==
      if t in TEN_MILLIS_TASKS then 10_000_000
      else if t in FIFTY_MILLIS_TASKS then 50_000_000
      else NO_THRESHOLD
    ensures SlowestInstancesCount(t) == if t in SLOWEST_COLLECTING_TASKS then 30 else 0
  {
  }

  /** VFS_MD5, VFS_XATTR, VFS_DELETE. */
  lemma VfsMd5GroupLimits(t: ProfilerTask)
    requires t in {VfsMd5, VfsXattr, VfsDelete}
    ensures MinDuration(t) ==
      if t in TEN_MILLIS_TASKS then 10_000_000
      else if t in FIFTY_MILLIS_TASKS then 50_000_000
      else NO_THRESHOLD
    ensures SlowestInstancesCount(t) == if t in SLOWEST_COLLECTING_TASKS then 30 else 0
  {
  }

  /** VFS_OPEN, VFS_READ, VFS_WRITE. */
  lemma VfsOpenGroupLimits(t: ProfilerTask)
    requires t in {VfsOpen, VfsRead, VfsWrite}
    ensures MinDuration(t) ==
      if t in TEN_MILLIS_TASKS then 10_000_000
      else if t in FIFTY_MILLIS_TASKS then 50_000_000
      else NO_THRESHOLD
    ensures SlowestInstancesCount(t) == if t in SLOWEST_COLLECTING_TASKS then 30 else 0
  {
  }

  /** VFS_GLOB, VFS_VMFS_STAT, VFS_VMFS_DIR. */
  lemma VfsGlobGroupLimits(t: ProfilerTask)
    requires t in {VfsGlob, VfsVmfsStat, VfsVmfsDir}
    ensures MinDuration(t) ==
      if t in TEN_MILLIS_TASKS then 10_000_000
      else if t in FIFTY_MILLIS_TASKS then 50_000_000
      else NO_THRESHOLD
    ensures SlowestInstancesCount(t) == if t in SLOWEST_COLLECTING_TASKS then 30 else 0
  {
  }

  /** VFS_VMFS_READ, WAIT. */
  lemma VfsVmfsReadGroupLimits(t: ProfilerTask)
    requires t in {VfsVmfsRead, Wait}
    ensures MinDuration(t) ==
      if t in TEN_MILLIS_TASKS then 10_000_000
      else if t in FIFTY_MILLIS_TASKS then 50_000_000
      else NO_THRESHOLD
    ensures SlowestInstancesCount(t) == if t in SLOWEST_COLLECTING_TASKS then 30 else 0
  {
  }

  /** THREAD_NAME, SKYFRAME_EVAL. */
  lemma ThreadNameGroupLimits(t: ProfilerTask)
    requires t in {ThreadName, SkyframeEval}
    ensures MinDuration(t) ==
      if t in TEN_MILLIS_TASKS then 10_000_000
      else if t in FIFTY_MILLIS_TASKS then 50_000_000
      else NO_THRESHOLD
    ensures SlowestInstancesCount(t) == if t in SLOWEST_COLLECTING_TASKS then 30 else 0
  {
  }

  /** SKYFUNCTION, CRITICAL_PATH. */
  lemma SkyFunctionGroupLimits(t: ProfilerTask)
    requires t in {SkyFunction, CriticalPath}
    ensures MinDuration(t) ==
      if t in TEN_MILLIS_TASKS then 10_000_000
      else if t in FIFTY_MILLIS_TASKS then 50_000_000
      else NO_THRESHOLD
    ensures SlowestInstancesCount(t) == if t in SLOWEST_COLLECTING_TASKS then 30 else 0
  {
  }

  /** CRITICAL_PATH_COMPONENT, HANDLE_GC_NOTIFICATION. */
  lemma CriticalPathComponentGroupLimits(t: ProfilerTask)
    requires t in {CriticalPathComponent, HandleGcNotification}
    ensures MinDuration(t) ==
      if t in TEN_MILLIS_TASKS then 10_000_000
      else if t in FIFTY_MILLIS_TASKS then 50_000_000
      else NO_THRESHOLD
    ensures SlowestInstancesCount(t) == if t in SLOWEST_COLLECTING_TASKS then 30 else 0
  {
  }

  /** LOCAL_CPU_USAGE, ACTION_COUNTS. */
  lemma LocalCpuUsageGroupLimits(t: ProfilerTask)
    requires t in {LocalCpuUsage, ActionCounts}
    ensures MinDuration(t) ==
      if t in TEN_MILLIS_TASKS then 10_000_000
      else if t in FIFTY_MILLIS_TASKS then 50_000_000
      else NO_THRESHOLD
    ensures SlowestInstancesCount(t) == if t in SLOWEST_COLLECTING_TASKS then 30 else 0
  {
  }

  /** STARLARK_PARSER, STARLARK_USER_FN. */
  lemma StarlarkParserGroupLimits(t: ProfilerTask)
    requires t in {StarlarkParser, StarlarkUserFn}
    ensures MinDuration(t) ==
      if t in TEN_MILLIS_TASKS then 10_000_000
      else if t in FIFTY_MILLIS_TASKS then 50_000_000
      else NO_THRESHOLD
    ensures SlowestInstancesCount(t) == if t in SLOWEST_COLLECTING_TASKS then 30 else 0
  {
  }

  /** STARLARK_BUILTIN_FN, STARLARK_USER_COMPILED_FN. */
  lemma StarlarkBuiltinFnGroupLimits(t: ProfilerTask)
    requires t in {StarlarkBuiltinFn, StarlarkUserCompiledFn}
    ensures MinDuration(t) ==
      if t in TEN_MILLIS_TASKS then 10_000_000
      else if t in FIFTY_MILLIS_TASKS then 50_000_000
      else NO_THRESHOLD
    ensures SlowestInstancesCount(t) == if t in SLOWEST_COLLECTING_TASKS then 30 else 0
  {
  }

  /** ACTION_FS_STAGING, REMOTE_CACHE_CHECK. */
  lemma ActionFsStagingGroupLimits(t: ProfilerTask)
    requires t in {ActionFsStaging, RemoteCacheCheck}
    ensures MinDuration(t) ==
      if t in TEN_MILLIS_TASKS then 10_000_000
      else if t in FIFTY_MILLIS_TASKS then 50_000_000
      else NO_THRESHOLD
    ensures SlowestInstancesCount(t) == if t in SLOWEST_COLLECTING_TASKS then 30 else 0
  {
  }

  /** REMOTE_DOWNLOAD, REMOTE_NETWORK. */
  lemma RemoteDownloadGroupLimits(t: ProfilerTask)
    requires t in {RemoteDownload, RemoteNetwork}
    ensures MinDuration(t) ==
      if t in TEN_MILLIS_TASKS then 10_000_000
      else if t in FIFTY_MILLIS_TASKS then 50_000_000
      else NO_THRESHOLD
    ensures SlowestInstancesCount(t) == if t in SLOWEST_COLLECTING_TASKS then 30 else 0
  {
  }

  /** UNKNOWN. */
  lemma UnknownGroupLimits(t: ProfilerTask)
    requires t in {Unknown}
    ensures MinDuration(t) ==
      if t in TEN_MILLIS_TASKS then 10_000_000
      else if t in FIFTY_MILLIS_TASKS then 50_000_000
      else NO_THRESHOLD
    ensures SlowestInstancesCount(t) == if t in SLOWEST_COLLECTING_TASKS then 30 else 0
  {
  }

  /** The threshold and the slow-instance count every row stores. */
  lemma RowLimits(t: ProfilerTask)
    ensures MinDuration(t) ==
      if t in TEN_MILLIS_TASKS then 10_000_000
      else if t in FIFTY_MILLIS_TASKS then 50_000_000
      else NO_THRESHOLD
    ensures SlowestInstancesCount(t) == if t in SLOWEST_COLLECTING_TASKS then 30 else 0
  {
    if t in {Phase, Action, ActionCheck} {
      PhaseGroupLimits(t);
    } else if t in {ActionLock, ActionRelease, ActionUpdate} {
      ActionLockGroupLimits(t);
    } else if t in {ActionComplete, Info, CreatePackage} {
      ActionCompleteGroupLimits(t);
    } else if t in {RemoteExecution, LocalExecution, Scanner} {
      RemoteExecutionGroupLimits(t);
    } else if t in {LocalParse, UploadTime, ProcessTime} {
      LocalParseGroupLimits(t);
    } else if t in {RemoteQueue, RemoteSetup, Fetch} {
      RemoteQueueGroupLimits(t);
    } else if t in {VfsStat, VfsDir, VfsReadlink} {
      VfsStatGroupLimits(t);
    } else if t in {VfsMd5, VfsXattr, VfsDelete} {
      VfsMd5GroupLimits(t);
    } else if t in {VfsOpen, VfsRead, VfsWrite} {
      VfsOpenGroupLimits(t);
    } else if t in {VfsGlob, VfsVmfsStat, VfsVmfsDir} {
      VfsGlobGroupLimits(t);
    } else if t in {VfsVmfsRead, Wait} {
      VfsVmfsReadGroupLimits(t);
    } else if t in {ThreadName, SkyframeEval} {
      ThreadNameGroupLimits(t);
    } else if t in {SkyFunction, CriticalPath} {
      SkyFunctionGroupLimits(t);
    } else if t in {CriticalPathComponent, HandleGcNotification} {
      CriticalPathComponentGroupLimits(t);
    } else if t in {LocalCpuUsage, ActionCounts} {
      LocalCpuUsageGroupLimits(t);
    } else if t in {StarlarkParser, StarlarkUserFn} {
      StarlarkParserGroupLimits(t);
    } else if t in {StarlarkBuiltinFn, StarlarkUserCompiledFn} {
      StarlarkBuiltinFnGroupLimits(t);
    } else if t in {ActionFsStaging, RemoteCacheCheck} {
      ActionFsStagingGroupLimits(t);
    } else if t in {RemoteDownload, RemoteNetwork} {
      RemoteDownloadGroupLimits(t);
    } else {
      UnknownGroupLimits(t);
    }
  }

  // ---------------------------------------------------------------------------
  // Position in declaration order

  /** PHASE, ACTION, ACTION_CHECK, ACTION_LOCK. */
  lemma PhaseGroupOrder(t: ProfilerTask)
    requires t in {Phase, Action, ActionCheck, ActionLock}
    ensures Ordinal(t) < 49 && FromOrdinal(Ordinal(t)) == t
  {
  }

  /** ACTION_RELEASE, ACTION_UPDATE, ACTION_COMPLETE, INFO. */
  lemma ActionReleaseGroupOrder(t: ProfilerTask)
    requires t in {ActionRelease, ActionUpdate, ActionComplete, Info}
    ensures Ordinal(t) < 49 && FromOrdinal(Ordinal(t)) == t
  {
  }

  /** CREATE_PACKAGE, REMOTE_EXECUTION, LOCAL_EXECUTION, SCANNER. */
  lemma CreatePackageGroupOrder(t: ProfilerTask)
    requires t in {CreatePackage, RemoteExecution, LocalExecution, Scanner}
    ensures Ordinal(t) < 49 && FromOrdinal(Ordinal(t)) == t
  {
  }

  /** LOCAL_PARSE, UPLOAD_TIME, PROCESS_TIME, REMOTE_QUEUE. */
  lemma LocalParseGroupOrder(t: ProfilerTask)
    requires t in {LocalParse, UploadTime, ProcessTime, RemoteQueue}
    ensures Ordinal(t) < 49 && FromOrdinal(Ordinal(t)) == t
  {
  }

  /** REMOTE_SETUP, FETCH, VFS_STAT, VFS_DIR. */
  lemma RemoteSetupGroupOrder(t: ProfilerTask)
    requires t in {RemoteSetup, Fetch, VfsStat, VfsDir}
    ensures Ordinal(t) < 49 && FromOrdinal(Ordinal(t)) == t
  {
  }

  /** VFS_READLINK, VFS_MD5, VFS_XATTR, VFS_DELETE. */
  lemma VfsReadlinkGroupOrder(t: ProfilerTask)
    requires t in {VfsReadlink, VfsMd5, VfsXattr, VfsDelete}
    ensures Ordinal(t) < 49 && FromOrdinal(Ordinal(t)) == t
  {
  }

  /** VFS_OPEN, VFS_READ, VFS_WRITE, VFS_GLOB. */
  lemma VfsOpenGroupOrder(t: ProfilerTask)
    requires t in {VfsOpen, VfsRead, VfsWrite, VfsGlob}
    ensures Ordinal(t) < 49 && FromOrdinal(Ordinal(t)) == t
  {
  }

  /** VFS_VMFS_STAT, VFS_VMFS_DIR, VFS_VMFS_READ, WAIT. */
  lemma VfsVmfsStatGroupOrder(t: ProfilerTask)
    requires t in {VfsVmfsStat, VfsVmfsDir, VfsVmfsRead, Wait}
    ensures Ordinal(t) < 49 && FromOrdinal(Ordinal(t)) == t
  {
  }

  /** THREAD_NAME, SKYFRAME_EVAL, SKYFUNCTION, CRITICAL_PATH. */
  lemma ThreadNameGroupOrder(t: ProfilerTask)
    requires t in {ThreadName, SkyframeEval, SkyFunction, CriticalPath}
    ensures Ordinal(t) < 49 && FromOrdinal(Ordinal(t)) == t
  {
  }

  /** CRITICAL_PATH_COMPONENT, HANDLE_GC_NOTIFICATION, LOCAL_CPU_USAGE, ACTION_COUNTS. */
  lemma CriticalPathComponentGroupOrder(t: ProfilerTask)
    requires t in {CriticalPathComponent, HandleGcNotification, LocalCpuUsage, ActionCounts}
    ensures Ordinal(t) < 49 && FromOrdinal(Ordinal(t)) == t
  {
  }

  /** STARLARK_PARSER, STARLARK_USER_FN, STARLARK_BUILTIN_FN, STARLARK_USER_COMPILED_FN. */
  lemma StarlarkParserGroupOrder(t: ProfilerTask)
    requires t in {StarlarkParser, StarlarkUserFn, StarlarkBuiltinFn, StarlarkUserCompiledFn}
    ensures Ordinal(t) < 49 && FromOrdinal(Ordinal(t)) == t
  {
  }

  /** ACTION_FS_STAGING, REMOTE_CACHE_CHECK, REMOTE_DOWNLOAD, REMOTE_NETWORK. */
  lemma ActionFsStagingGroupOrder(t: ProfilerTask)
    requires t in {ActionFsStaging, RemoteCacheCheck, RemoteDownload, RemoteNetwork}
    ensures Ordinal(t) < 49 && FromOrdinal(Ordinal(t)) == t
  {
  }

  /** UNKNOWN. */
  lemma UnknownGroupOrder(t: ProfilerTask)
    requires t in {Unknown}
    ensures Ordinal(t) < 49 && FromOrdinal(Ordinal(t)) == t
  {
  }

  /** Every constant is the one found at its own position. */
  lemma RowOrder(t: ProfilerTask)
    ensures Ordinal(t) < 49 && FromOrdinal(Ordinal(t)) == t
  {
    if t in {Phase, Action, ActionCheck, ActionLock} {
      PhaseGroupOrder(t);
    } else if t in {ActionRelease, ActionUpdate, ActionComplete, Info} {
      ActionReleaseGroupOrder(t);
    } else if t in {CreatePackage, RemoteExecution, LocalExecution, Scanner} {
      CreatePackageGroupOrder(t);
    } else if t in {LocalParse, UploadTime, ProcessTime, RemoteQueue} {
      LocalParseGroupOrder(t);
    } else if t in {RemoteSetup, Fetch, VfsStat, VfsDir} {
      RemoteSetupGroupOrder(t);
    } else if t in {VfsReadlink, VfsMd5, VfsXattr, VfsDelete} {
      VfsReadlinkGroupOrder(t);
    } else if t in {VfsOpen, VfsRead, VfsWrite, VfsGlob} {
      VfsOpenGroupOrder(t);
    } else if t in {VfsVmfsStat, VfsVmfsDir, VfsVmfsRead, Wait} {
      VfsVmfsStatGroupOrder(t);
    } else if t in {ThreadName, SkyframeEval, SkyFunction, CriticalPath} {
      ThreadNameGroupOrder(t);
    } else if t in {CriticalPathComponent, HandleGcNotification, LocalCpuUsage, ActionCounts} {
      CriticalPathComponentGroupOrder(t);
    } else if t in {StarlarkParser, StarlarkUserFn, StarlarkBuiltinFn, StarlarkUserCompiledFn} {
      StarlarkParserGroupOrder(t);
    } else if t in {ActionFsStaging, RemoteCacheCheck, RemoteDownload, RemoteNetwork} {
      ActionFsStagingGroupOrder(t);
    } else {
      UnknownGroupOrder(t);
    }
  }

  // ---------------------------------------------------------------------------
  // VFS and Starlark flags
  //
  // A row whose name does not start with VFS, or whose description does not
  // start with "Starlark ", is shown so by one character where the two differ.

  lemma PhaseRow()
    ensures !IsVfs(Phase) && !IsStarlark(Phase)
  {
    assert Name(Phase)[2] == 'A' && Description(Phase)[8] == 'a';
  }

  lemma ActionRow()
    ensures !IsVfs(Action) && !IsStarlark(Action)
  {
    assert Name(Action)[2] == 'T' && Description(Action)[8] == 'r';
  }

  lemma ActionCheckRow()
    ensures !IsVfs(ActionCheck) && !IsStarlark(ActionCheck)
  {
    assert Name(ActionCheck)[2] == 'T' && Description(ActionCheck)[8] == 'e';
  }

  /** PHASE, ACTION, ACTION_CHECK. */
  lemma PhaseGroupFlags(t: ProfilerTask)
    requires t in {Phase, Action, ActionCheck}
    ensures IsVfs(t) <==> t in VFS_TASKS
    ensures IsStarlark(t) <==> t in STARLARK_TASKS
  {
    match t
    case Phase => PhaseRow();
    case Action => ActionRow();
    case ActionCheck => ActionCheckRow();
    case _ =>
  }

  lemma ActionLockRow()
    ensures !IsVfs(ActionLock) && !IsStarlark(ActionLock)
  {
    assert Name(ActionLock)[2] == 'T' && Description(ActionLock)[8] == 'e';
  }

  lemma ActionReleaseRow()
    ensures !IsVfs(ActionRelease) && !IsStarlark(ActionRelease)
  {
    assert Name(ActionRelease)[2] == 'T' && Description(ActionRelease)[8] == 'e';
  }

  lemma ActionUpdateRow()
    ensures !IsVfs(ActionUpdate) && !IsStarlark(ActionUpdate)
  {
    assert Name(ActionUpdate)[2] == 'T' && Description(ActionUpdate)[8] == 'c';
  }

  /** ACTION_LOCK, ACTION_RELEASE, ACTION_UPDATE. */
  lemma ActionLockGroupFlags(t: ProfilerTask)
    requires t in {ActionLock, ActionRelease, ActionUpdate}
    ensures IsVfs(t) <==> t in VFS_TASKS
    ensures IsStarlark(t) <==> t in STARLARK_TASKS
  {
    match t
    case ActionLock => ActionLockRow();
    case ActionRelease => ActionReleaseRow();
    case ActionUpdate => ActionUpdateRow();
    case _ =>
  }

  lemma ActionCompleteRow()
    ensures !IsVfs(ActionComplete) && !IsStarlark(ActionComplete)
  {
    assert Name(ActionComplete)[2] == 'T' && Description(ActionComplete)[7] == 'e';
  }

  lemma InfoRow()
    ensures !IsVfs(Info) && !IsStarlark(Info)
  {
    assert Name(Info)[2] == 'F' && Description(Info)[8] == 'i';
  }

  lemma CreatePackageRow()
    ensures !IsVfs(CreatePackage) && !IsStarlark(CreatePackage)
  {
    assert Name(CreatePackage)[2] == 'E' && Description(CreatePackage)[8] == 'c';
  }

  /** ACTION_COMPLETE, INFO, CREATE_PACKAGE. */
  lemma ActionCompleteGroupFlags(t: ProfilerTask)
    requires t in {ActionComplete, Info, CreatePackage}
    ensures IsVfs(t) <==> t in VFS_TASKS
    ensures IsStarlark(t) <==> t in STARLARK_TASKS
  {
    match t
    case ActionComplete => ActionCompleteRow();
    case Info => InfoRow();
    case CreatePackage => CreatePackageRow();
    case _ =>
  }

  lemma RemoteExecutionRow()
    ensures !IsVfs(RemoteExecution) && !IsStarlark(RemoteExecution)
  {
    assert Name(RemoteExecution)[2] == 'M' && Description(RemoteExecution)[8] == 'c';
  }

  lemma LocalExecutionRow()
    ensures !IsVfs(LocalExecution) && !IsStarlark(LocalExecution)
  {
    assert Name(LocalExecution)[2] == 'C' && Description(LocalExecution)[8] == 't';
  }

  lemma ScannerRow()
    ensures !IsVfs(Scanner) && !IsStarlark(Scanner)
  {
    assert Name(Scanner)[2] == 'A' && Description(Scanner)[8] == 's';
  }

  /** REMOTE_EXECUTION, LOCAL_EXECUTION, SCANNER. */
  lemma RemoteExecutionGroupFlags(t: ProfilerTask)
    requires t in {RemoteExecution, LocalExecution, Scanner}
    ensures IsVfs(t) <==> t in VFS_TASKS
    ensures IsStarlark(t) <==> t in STARLARK_TASKS
  {
    match t
    case RemoteExecution => RemoteExecutionRow();
    case LocalExecution => LocalExecutionRow();
    case Scanner => ScannerRow();
    case _ =>
  }

  lemma LocalParseRow()
    ensures !IsVfs(LocalParse) && !IsStarlark(LocalParse)
  {
    assert Name(LocalParse)[2] == 'C' && Description(LocalParse)[8] == 'r';
  }

  lemma UploadTimeRow()
    ensures !IsVfs(UploadTime) && !IsStarlark(UploadTime)
  {
    assert Name(UploadTime)[2] == 'L' && Description(UploadTime)[8] == 'x';
  }

  lemma ProcessTimeRow()
    ensures !IsVfs(ProcessTime) && !IsStarlark(ProcessTime)
  {
    assert Name(ProcessTime)[2] == 'O' && Description(ProcessTime)[8] == 'x';
  }

  /** LOCAL_PARSE, UPLOAD_TIME, PROCESS_TIME. */
  lemma LocalParseGroupFlags(t: ProfilerTask)
    requires t in {LocalParse, UploadTime, ProcessTime}
    ensures IsVfs(t) <==> t in VFS_TASKS
    ensures IsStarlark(t) <==> t in STARLARK_TASKS
  {
    match t
    case LocalParse => LocalParseRow();
    case UploadTime => UploadTimeRow();
    case ProcessTime => ProcessTimeRow();
    case _ =>
  }

  lemma RemoteQueueRow()
    ensures !IsVfs(RemoteQueue) && !IsStarlark(RemoteQueue)
  {
    assert Name(RemoteQueue)[2] == 'M' && Description(RemoteQueue)[8] == 'x';
  }

  lemma RemoteSetupRow()
    ensures !IsVfs(RemoteSetup) && !IsStarlark(RemoteSetup)
  {
    assert Name(RemoteSetup)[2] == 'M' && Description(RemoteSetup)[8] == 'x';
  }

  lemma FetchRow()
    ensures !IsVfs(Fetch) && !IsStarlark(Fetch)
  {
    assert Name(Fetch)[2] == 'T' && Description(Fetch)[8] == 'x';
  }

  /** REMOTE_QUEUE, REMOTE_SETUP, FETCH. */
  lemma RemoteQueueGroupFlags(t: ProfilerTask)
    requires t in {RemoteQueue, RemoteSetup, Fetch}
    ensures IsVfs(t) <==> t in VFS_TASKS
    ensures IsStarlark(t) <==> t in STARLARK_TASKS
  {
    match t
    case RemoteQueue => RemoteQueueRow();
    case RemoteSetup => RemoteSetupRow();
    case Fetch => FetchRow();
    case _ =>
  }

  lemma VfsStatRow()
    ensures IsVfs(VfsStat) && !IsStarlark(VfsStat)
  {
    assert Description(VfsStat)[7] == 't';
  }

  lemma VfsDirRow()
    ensures IsVfs(VfsDir) && !IsStarlark(VfsDir)
  {
    assert Description(VfsDir)[8] == 'd';
  }

  lemma VfsReadlinkRow()
    ensures IsVfs(VfsReadlink) && !IsStarlark(VfsReadlink)
  {
    assert Description(VfsReadlink)[8] == 'l';
  }

  /** VFS_STAT, VFS_DIR, VFS_READLINK. */
  lemma VfsStatGroupFlags(t: ProfilerTask)
    requires t in {VfsStat, VfsDir, VfsReadlink}
    ensures IsVfs(t) <==> t in VFS_TASKS
    ensures IsStarlark(t) <==> t in STARLARK_TASKS
  {
    match t
    case VfsStat => VfsStatRow();
    case VfsDir => VfsDirRow();
    case VfsReadlink => VfsReadlinkRow();
    case _ =>
  }

  lemma VfsMd5Row()
    ensures IsVfs(VfsMd5) && !IsStarlark(VfsMd5)
  {
    assert Description(VfsMd5)[6] == '5';
  }

  lemma VfsXattrRow()
    ensures IsVfs(VfsXattr) && !IsStarlark(VfsXattr)
  {
    assert Description(VfsXattr)[8] == 'r';
  }

  lemma VfsDeleteRow()
    ensures IsVfs(VfsDelete) && !IsStarlark(VfsDelete)
  {
    assert Description(VfsDelete)[8] == 't';
  }

  /** VFS_MD5, VFS_XATTR, VFS_DELETE. */
  lemma VfsMd5GroupFlags(t: ProfilerTask)
    requires t in {VfsMd5, VfsXattr, VfsDelete}
    ensures IsVfs(t) <==> t in VFS_TASKS
    ensures IsStarlark(t) <==> t in STARLARK_TASKS
  {
    match t
    case VfsMd5 => VfsMd5Row();
    case VfsXattr => VfsXattrRow();
    case VfsDelete => VfsDeleteRow();
    case _ =>
  }

  lemma VfsOpenRow()
    ensures IsVfs(VfsOpen) && !IsStarlark(VfsOpen)
  {
    assert Description(VfsOpen)[7] == 'n';
  }

  lemma VfsReadRow()
    ensures IsVfs(VfsRead) && !IsStarlark(VfsRead)
  {
    assert Description(VfsRead)[7] == 'd';
  }

  lemma VfsWriteRow()
    ensures IsVfs(VfsWrite) && !IsStarlark(VfsWrite)
  {
    assert Description(VfsWrite)[8] == 'e';
  }

  /** VFS_OPEN, VFS_READ, VFS_WRITE. */
  lemma VfsOpenGroupFlags(t: ProfilerTask)
    requires t in {VfsOpen, VfsRead, VfsWrite}
    ensures IsVfs(t) <==> t in VFS_TASKS
    ensures IsStarlark(t) <==> t in STARLARK_TASKS
  {
    match t
    case VfsOpen => VfsOpenRow();
    case VfsRead => VfsReadRow();
    case VfsWrite => VfsWriteRow();
    case _ =>
  }

  lemma VfsGlobRow()
    ensures IsVfs(VfsGlob) && !IsStarlark(VfsGlob)
  {
    assert Description(VfsGlob)[7] == 'g';
  }

  lemma VfsVmfsStatRow()
    ensures IsVfs(VfsVmfsStat) && !IsStarlark(VfsVmfsStat)
  {
    assert Description(VfsVmfsStat)[8] == 't';
  }

  lemma VfsVmfsDirRow()
    ensures IsVfs(VfsVmfsDir) && !IsStarlark(VfsVmfsDir)
  {
    assert Description(VfsVmfsDir)[8] == 'd';
  }

  /** VFS_GLOB, VFS_VMFS_STAT, VFS_VMFS_DIR. */
  lemma VfsGlobGroupFlags(t: ProfilerTask)
    requires t in {VfsGlob, VfsVmfsStat, VfsVmfsDir}
    ensures IsVfs(t) <==> t in VFS_TASKS
    ensures IsStarlark(t) <==> t in STARLARK_TASKS
  {
    match t
    case VfsGlob => VfsGlobRow();
    case VfsVmfsStat => VfsVmfsStatRow();
    case VfsVmfsDir => VfsVmfsDirRow();
    case _ =>
  }

  lemma VfsVmfsReadRow()
    ensures IsVfs(VfsVmfsRead) && !IsStarlark(VfsVmfsRead)
  {
    assert Description(VfsVmfsRead)[8] == 'd';
  }

  lemma WaitRow()
    ensures !IsVfs(Wait) && !IsStarlark(Wait)
  {
    assert Name(Wait)[2] == 'I' && Description(Wait)[8] == 'a';
  }

  /** VFS_VMFS_READ, WAIT. */
  lemma VfsVmfsReadGroupFlags(t: ProfilerTask)
    requires t in {VfsVmfsRead, Wait}
    ensures IsVfs(t) <==> t in VFS_TASKS
    ensures IsStarlark(t) <==> t in STARLARK_TASKS
  {
    match t
    case VfsVmfsRead => VfsVmfsReadRow();
    case Wait => WaitRow();
    case _ =>
  }

  lemma ThreadNameRow()
    ensures !IsVfs(ThreadName) && !IsStarlark(ThreadName)
  {
    assert Name(ThreadName)[2] == 'R' && Description(ThreadName)[8] == 'a';
  }

  lemma SkyframeEvalRow()
    ensures !IsVfs(SkyframeEval) && !IsStarlark(SkyframeEval)
  {
    assert Name(SkyframeEval)[2] == 'Y' && Description(SkyframeEval)[7] == 'e';
  }

  /** THREAD_NAME, SKYFRAME_EVAL. */
  lemma ThreadNameGroupFlags(t: ProfilerTask)
    requires t in {ThreadName, SkyframeEval}
    ensures IsVfs(t) <==> t in VFS_TASKS
    ensures IsStarlark(t) <==> t in STARLARK_TASKS
  {
    match t
    case ThreadName => ThreadNameRow();
    case SkyframeEval => SkyframeEvalRow();
    case _ =>
  }

  lemma SkyFunctionRow()
    ensures !IsVfs(SkyFunction) && !IsStarlark(SkyFunction)
  {
    assert Name(SkyFunction)[2] == 'Y' && Description(SkyFunction)[8] == 'i';
  }

  lemma CriticalPathRow()
    ensures !IsVfs(CriticalPath) && !IsStarlark(CriticalPath)
  {
    assert Name(CriticalPath)[2] == 'I' && Description(CriticalPath)[7] == 'l';
  }

  /** SKYFUNCTION, CRITICAL_PATH. */
  lemma SkyFunctionGroupFlags(t: ProfilerTask)
    requires t in {SkyFunction, CriticalPath}
    ensures IsVfs(t) <==> t in VFS_TASKS
    ensures IsStarlark(t) <==> t in STARLARK_TASKS
  {
    match t
    case SkyFunction => SkyFunctionRow();
    case CriticalPath => CriticalPathRow();
    case _ =>
  }

  lemma CriticalPathComponentRow()
    ensures !IsVfs(CriticalPathComponent) && !IsStarlark(CriticalPathComponent)
  {
    assert Name(CriticalPathComponent)[2] == 'I' && Description(CriticalPathComponent)[7] == 'l';
  }

  lemma HandleGcNotificationRow()
    ensures !IsVfs(HandleGcNotification) && !IsStarlark(HandleGcNotification)
  {
    assert Name(HandleGcNotification)[2] == 'N' && Description(HandleGcNotification)[8] == 'i';
  }

  /** CRITICAL_PATH_COMPONENT, HANDLE_GC_NOTIFICATION. */
  lemma CriticalPathComponentGroupFlags(t: ProfilerTask)
    requires t in {CriticalPathComponent, HandleGcNotification}
    ensures IsVfs(t) <==> t in VFS_TASKS
    ensures IsStarlark(t) <==> t in STARLARK_TASKS
  {
    match t
    case CriticalPathComponent => CriticalPathComponentRow();
    case HandleGcNotification => HandleGcNotificationRow();
    case _ =>
  }

  lemma LocalCpuUsageRow()
    ensures !IsVfs(LocalCpuUsage) && !IsStarlark(LocalCpuUsage)
  {
    assert Name(LocalCpuUsage)[2] == 'C' && Description(LocalCpuUsage)[8] == 't';
  }

  lemma ActionCountsRow()
    ensures !IsVfs(ActionCounts) && !IsStarlark(ActionCounts)
  {
    assert Name(ActionCounts)[2] == 'T' && Description(ActionCounts)[8] == 'o';
  }

  /** LOCAL_CPU_USAGE, ACTION_COUNTS. */
  lemma LocalCpuUsageGroupFlags(t: ProfilerTask)
    requires t in {LocalCpuUsage, ActionCounts}
    ensures IsVfs(t) <==> t in VFS_TASKS
    ensures IsStarlark(t) <==> t in STARLARK_TASKS
  {
    match t
    case LocalCpuUsage => LocalCpuUsageRow();
    case ActionCounts => ActionCountsRow();
    case _ =>
  }

  lemma StarlarkParserRow()
    ensures !IsVfs(StarlarkParser) && IsStarlark(StarlarkParser)
  {
    assert Name(StarlarkParser)[2] == 'A';
  }

  lemma StarlarkUserFnRow()
    ensures !IsVfs(StarlarkUserFn) && IsStarlark(StarlarkUserFn)
  {
    assert Name(StarlarkUserFn)[2] == 'A';
  }

  /** STARLARK_PARSER, STARLARK_USER_FN. */
  lemma StarlarkParserGroupFlags(t: ProfilerTask)
    requires t in {StarlarkParser, StarlarkUserFn}
    ensures IsVfs(t) <==> t in VFS_TASKS
    ensures IsStarlark(t) <==> t in STARLARK_TASKS
  {
    match t
    case StarlarkParser => StarlarkParserRow();
    case StarlarkUserFn => StarlarkUserFnRow();
    case _ =>
  }

  lemma StarlarkBuiltinFnRow()
    ensures !IsVfs(StarlarkBuiltinFn) && IsStarlark(StarlarkBuiltinFn)
  {
    assert Name(StarlarkBuiltinFn)[2] == 'A';
  }

  lemma StarlarkUserCompiledFnRow()
    ensures !IsVfs(StarlarkUserCompiledFn) && IsStarlark(StarlarkUserCompiledFn)
  {
    assert Name(StarlarkUserCompiledFn)[2] == 'A';
  }

  /** STARLARK_BUILTIN_FN, STARLARK_USER_COMPILED_FN. */
  lemma StarlarkBuiltinFnGroupFlags(t: ProfilerTask)
    requires t in {StarlarkBuiltinFn, StarlarkUserCompiledFn}
    ensures IsVfs(t) <==> t in VFS_TASKS
    ensures IsStarlark(t) <==> t in STARLARK_TASKS
  {
    match t
    case StarlarkBuiltinFn => StarlarkBuiltinFnRow();
    case StarlarkUserCompiledFn => StarlarkUserCompiledFnRow();
    case _ =>
  }

  lemma ActionFsStagingRow()
    ensures !IsVfs(ActionFsStaging) && !IsStarlark(ActionFsStaging)
  {
    assert Name(ActionFsStaging)[2] == 'T' && Description(ActionFsStaging)[8] == 'p';
  }

  lemma RemoteCacheCheckRow()
    ensures !IsVfs(RemoteCacheCheck) && !IsStarlark(RemoteCacheCheck)
  {
    assert Name(RemoteCacheCheck)[2] == 'M' && Description(RemoteCacheCheck)[8] == 'c';
  }

  /** ACTION_FS_STAGING, REMOTE_CACHE_CHECK. */
  lemma ActionFsStagingGroupFlags(t: ProfilerTask)
    requires t in {ActionFsStaging, RemoteCacheCheck}
    ensures IsVfs(t) <==> t in VFS_TASKS
    ensures IsStarlark(t) <==> t in STARLARK_TASKS
  {
    match t
    case ActionFsStaging => ActionFsStagingRow();
    case RemoteCacheCheck => RemoteCacheCheckRow();
    case _ =>
  }

  lemma RemoteDownloadRow()
    ensures !IsVfs(RemoteDownload) && !IsStarlark(RemoteDownload)
  {
    assert Name(RemoteDownload)[2] == 'M' && Description(RemoteDownload)[8] == 'u';
  }

  lemma RemoteNetworkRow()
    ensures !IsVfs(RemoteNetwork) && !IsStarlark(RemoteNetwork)
  {
    assert Name(RemoteNetwork)[2] == 'M' && Description(RemoteNetwork)[8] == 'e';
  }

  /** REMOTE_DOWNLOAD, REMOTE_NETWORK. */
  lemma RemoteDownloadGroupFlags(t: ProfilerTask)
    requires t in {RemoteDownload, RemoteNetwork}
    ensures IsVfs(t) <==> t in VFS_TASKS
    ensures IsStarlark(t) <==> t in STARLARK_TASKS
  {
    match t
    case RemoteDownload => RemoteDownloadRow();
    case RemoteNetwork => RemoteNetworkRow();
    case _ =>
  }

  lemma UnknownRow()
    ensures !IsVfs(Unknown) && !IsStarlark(Unknown)
  {
    assert Name(Unknown)[2] == 'K' && Description(Unknown)[8] == 'e';
  }

  /** UNKNOWN. */
  lemma UnknownGroupFlags(t: ProfilerTask)
    requires t in {Unknown}
    ensures IsVfs(t) <==> t in VFS_TASKS
    ensures IsStarlark(t) <==> t in STARLARK_TASKS
  {
    match t
    case Unknown => UnknownRow();
    case _ =>
  }

  /** Both derived flags of every row. */
  lemma RowFlags(t: ProfilerTask)
    ensures IsVfs(t) <==> t in VFS_TASKS
    ensures IsStarlark(t) <==> t in STARLARK_TASKS
  {
    if t in {Phase, Action, ActionCheck} {
      PhaseGroupFlags(t);
    } else if t in {ActionLock, ActionRelease, ActionUpdate} {
      ActionLockGroupFlags(t);
    } else if t in {ActionComplete, Info, CreatePackage} {
      ActionCompleteGroupFlags(t);
    } else if t in {RemoteExecution, LocalExecution, Scanner} {
      RemoteExecutionGroupFlags(t);
    } else if t in {LocalParse, UploadTime, ProcessTime} {
      LocalParseGroupFlags(t);
    } else if t in {RemoteQueue, RemoteSetup, Fetch} {
      RemoteQueueGroupFlags(t);
    } else if t in {VfsStat, VfsDir, VfsReadlink} {
      VfsStatGroupFlags(t);
    } else if t in {VfsMd5, VfsXattr, VfsDelete} {
      VfsMd5GroupFlags(t);
    } else if t in {VfsOpen, VfsRead, VfsWrite} {
      VfsOpenGroupFlags(t);
    } else if t in {VfsGlob, VfsVmfsStat, VfsVmfsDir} {
      VfsGlobGroupFlags(t);
    } else if t in {VfsVmfsRead, Wait} {
      VfsVmfsReadGroupFlags(t);
    } else if t in {ThreadName, SkyframeEval} {
      ThreadNameGroupFlags(t);
    } else if t in {SkyFunction, CriticalPath} {
      SkyFunctionGroupFlags(t);
    } else if t in {CriticalPathComponent, HandleGcNotification} {
      CriticalPathComponentGroupFlags(t);
    } else if t in {LocalCpuUsage, ActionCounts} {
      LocalCpuUsageGroupFlags(t);
    } else if t in {StarlarkParser, StarlarkUserFn} {
      StarlarkParserGroupFlags(t);
    } else if t in {StarlarkBuiltinFn, StarlarkUserCompiledFn} {
      StarlarkBuiltinFnGroupFlags(t);
    } else if t in {ActionFsStaging, RemoteCacheCheck} {
      ActionFsStagingGroupFlags(t);
    } else if t in {RemoteDownload, RemoteNetwork} {
      RemoteDownloadGroupFlags(t);
    } else {
      UnknownGroupFlags(t);
    }
  }
}
