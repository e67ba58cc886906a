/** Waiting for the service: one loop, instantiated for each kind of resource. */
module Polling {
  import opened Parameters

  /** What one check of the resource amounts to: it is there, it is on its way, or the wait is over for good. */
  datatype Verdict = Ready | Waiting | Broken

  datatype PollResult = Done | Failed | TimedOut

  const INTERVAL_SECONDS := 15
  const TIMEOUT_SECONDS := 15 * 60
  const MAX_CHECKS: nat := TIMEOUT_SECONDS / INTERVAL_SECONDS

  /** Check `i` is the first that is not told to wait. */
  predicate Decides<O>(observe: nat -> O, judge: O -> Verdict, i: nat) {
    !judge(observe(i)).Waiting? && forall j: nat | j < i :: judge(observe(j)).Waiting?
  }

  /** Checks until a verdict other than waiting, at most `limit` times. */
  method Poll<O>(observe: nat -> O, judge: O -> Verdict, limit: nat) returns (r: PollResult, checks: nat)
    ensures checks <= limit
    ensures r.Done? <==> exists i: nat :: i < limit && Decides(observe, judge, i) && judge(observe(i)).Ready?
    ensures r.Failed? <==> exists i: nat :: i < limit && Decides(observe, judge, i) && judge(observe(i)).Broken?
    ensures r.TimedOut? <==> forall i: nat | i < limit :: judge(observe(i)).Waiting?
    ensures !r.TimedOut? ==> checks > 0 && Decides(observe, judge, checks - 1)
    ensures r.TimedOut? ==> checks == limit
  {
    checks := 0;
    while checks < limit
      invariant checks <= limit
      invariant forall j: nat | j < checks :: judge(observe(j)).Waiting?
    {
      var verdict := judge(observe(checks));
      checks := checks + 1;
      if !verdict.Waiting? {
        assert Decides(observe, judge, checks - 1);
        return if verdict.Ready? then Done else Failed, checks;
      }
    }
    r := TimedOut;
  }

  // ---------- The instances ----------

  datatype FileSystemLifecycle = FsAvailable | FsCreating
    | FsDeleting | FsFailed | FsMisconfigured | FsUpdating | FsOther
  datatype VolumeLifecycle = VolAvailable | VolPending | VolCreating | VolCreated
    | VolDeleting | VolFailed | VolMisconfigured
  datatype SnapshotLifecycle = SnapAvailable | SnapPending | SnapCreating | SnapDeleting

  /** No observation means that reading the resource failed. */
  function JudgeFileSystem(seen: Option<FileSystemLifecycle>): Verdict {
    match seen
    case Some(FsAvailable) => Ready
    case Some(FsCreating) => Waiting
    case _ => Broken
  }

  function JudgeVolume(seen: Option<VolumeLifecycle>): Verdict {
    match seen
    case Some(VolAvailable) => Ready
    case Some(VolPending) => Waiting
    case Some(VolCreating) => Waiting
    case _ => Broken
  }

  function JudgeSnapshot(seen: Option<SnapshotLifecycle>): Verdict {
    match seen
    case Some(SnapAvailable) => Ready
    case Some(SnapPending) => Waiting
    case Some(SnapCreating) => Waiting
    case _ => Broken
  }

  /** Some check finds the file system available, and all before it found it creating. */
  ghost predicate FileSystemAppears(observe: nat -> Option<FileSystemLifecycle>) {
    exists i: nat ::
      && i < 60 && observe(i) == Some(FsAvailable)
      && forall j: nat | j < i :: observe(j) == Some(FsCreating)
  }

  /** The same for a volume, which may be pending first. */
  ghost predicate VolumeAppears(observe: nat -> Option<VolumeLifecycle>) {
    exists i: nat ::
      && i < 60 && observe(i) == Some(VolAvailable)
      && forall j: nat | j < i :: observe(j) in {Some(VolPending), Some(VolCreating)}
  }

  method WaitForFileSystemAvailable(observe: nat -> Option<FileSystemLifecycle>) returns (ok: bool, checks: nat)
    ensures checks <= 60
    ensures ok <==> FileSystemAppears(observe)
    ensures ok <==> exists i: nat ::
      && i < 60 && observe(i) == Some(FsAvailable)
      && forall j: nat | j < i :: observe(j) == Some(FsCreating)
  {
    forall i: nat | (observe(i) == Some(FsAvailable) && forall j: nat | j < i :: observe(j) == Some(FsCreating))
      ensures Decides(observe, JudgeFileSystem, i)
    {
    }
    var r;
    r, checks := Poll(observe, JudgeFileSystem, MAX_CHECKS);
    ok := r.Done?;
    if ok {
      assert observe(checks - 1) == Some(FsAvailable);
    }
  }

  method WaitForVolumeAvailable(observe: nat -> Option<VolumeLifecycle>) returns (ok: bool, checks: nat)
    ensures checks <= 60
    ensures ok <==> VolumeAppears(observe)
    ensures ok <==> exists i: nat ::
      && i < 60 && observe(i) == Some(VolAvailable)
      && forall j: nat | j < i :: observe(j) == Some(VolPending) || observe(j) == Some(VolCreating)
  {
    forall i: nat | (observe(i) == Some(VolAvailable)
                     && forall j: nat | j < i :: observe(j) in {Some(VolPending), Some(VolCreating)})
      ensures Decides(observe, JudgeVolume, i)
    {
    }
    var r;
    r, checks := Poll(observe, JudgeVolume, MAX_CHECKS);
    ok := r.Done?;
    if ok {
      assert observe(checks - 1) == Some(VolAvailable);
    }
  }

  /** Without an identifier nothing is checked. */
  method WaitForSnapshotAvailable(id: string, observe: nat -> Option<SnapshotLifecycle>) returns (ok: bool, checks: nat)
    ensures checks <= if id == "" then 0 else 60
    ensures ok <==> id != "" && exists i: nat ::
      && i < 60 && observe(i) == Some(SnapAvailable)
      && forall j: nat | j < i :: observe(j) in {Some(SnapPending), Some(SnapCreating)}
  {
    if id == "" {
      return false, 0;
    }
    forall i: nat | (observe(i) == Some(SnapAvailable)
                     && forall j: nat | j < i :: observe(j) in {Some(SnapPending), Some(SnapCreating)})
      ensures Decides(observe, JudgeSnapshot, i)
    {
    }
    var r;
    r, checks := Poll(observe, JudgeSnapshot, MAX_CHECKS);
    ok := r.Done?;
    if ok {
      assert observe(checks - 1) == Some(SnapAvailable);
    }
  }
}
