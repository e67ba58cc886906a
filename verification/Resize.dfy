/** Expanding a file system: the driver's calls against a service that goes on changing by itself. */
module Resize {
  import opened Parameters
  import opened Capacity
  import opened Polling
  import opened Strings
  import InFlight

  // ---------- The service ----------

  datatype Status = Pending | InProgress | UpdatedOptimizing | Completed | Failure

  /** An administrative action; an update of the file system may or may not aim at a storage capacity. */
  datatype AdminAction = AdminAction(isUpdate: bool, target: Option<Int32>, status: Status)

  /** A file system as the service describes it, its actions from newest to oldest. */
  datatype FileSystem = FileSystem(capacity: Int32, tiering: bool, actions: seq<AdminAction>)

  predicate Running(a: AdminAction) {
    a.isUpdate && (a.status.Pending? || a.status.InProgress?)
  }

  predicate UpdateRunning(fs: FileSystem) {
    exists i | 0 <= i < |fs.actions| :: Running(fs.actions[i])
  }

  /** The actions whose storage capacity is in effect. */
  predicate InEffect(a: AdminAction) {
    a.isUpdate && a.target.Some? && (a.status.UpdatedOptimizing? || a.status.Completed?)
  }

  predicate Aims(a: AdminAction) {
    a.isUpdate && a.target.Some?
  }

  /** An update may start only when none is running, and never to shrink the file system. */
  predicate Admits(fs: FileSystem, target: Option<Int32>) {
    !UpdateRunning(fs) && (target.Some? ==> target.value > fs.capacity)
  }

  /** What the service does by itself or for others. */
  datatype ServiceStep =
    | Update(target: Option<Int32>)
    | OtherAction
    | Advance(i: nat)
    | Fail(i: nat)
    | Forget(i: nat)

  predicate Possible(fs: FileSystem, step: ServiceStep) {
    match step
    case Update(target) => Admits(fs, target)
    case OtherAction => true
    case Advance(i) => i < |fs.actions| && !fs.actions[i].status.Completed? && !fs.actions[i].status.Failure?
    case Fail(i) => i < |fs.actions| && (fs.actions[i].status.Pending? || fs.actions[i].status.InProgress?)
    case Forget(i) => i < |fs.actions| && !Running(fs.actions[i])
  }

  /** An update in progress ends by putting its capacity into effect. */
  function Advanced(fs: FileSystem, i: nat): FileSystem
    requires i < |fs.actions|
  {
    var a := fs.actions[i];
    match a.status
    case Pending => fs.(actions := fs.actions[i := a.(status := InProgress)])
    case InProgress =>
      FileSystem(if a.isUpdate && a.target.Some? then a.target.value else fs.capacity, fs.tiering,
                 fs.actions[i := a.(status := UpdatedOptimizing)])
    case _ => fs.(actions := fs.actions[i := a.(status := Completed)])
  }

  function ServiceNext(fs: FileSystem, step: ServiceStep): FileSystem {
    if !Possible(fs, step) then fs
    else match step
      case Update(target) => fs.(actions := [AdminAction(true, target, Pending)] + fs.actions)
      case OtherAction => fs.(actions := [AdminAction(false, None, Pending)] + fs.actions)
      case Advance(i) => Advanced(fs, i)
      case Fail(i) => fs.(actions := fs.actions[i := fs.actions[i].(status := Failure)])
      case Forget(i) => fs.(actions := fs.actions[..i] + fs.actions[i + 1..])
  }

  function ServiceRun(fs: FileSystem, steps: seq<ServiceStep>): FileSystem {
    if steps == [] then fs else ServiceNext(ServiceRun(fs, steps[..|steps| - 1]), steps[|steps| - 1])
  }

  // ---------- What the service keeps ----------

  /** Capacities in effect are reached, and the running update aims above the capacity. */
  ghost predicate CapacityHolds(fs: FileSystem) {
    && fs.capacity >= 0
    && (forall i | 0 <= i < |fs.actions| && InEffect(fs.actions[i]) :: fs.actions[i].target.value <= fs.capacity)
    && (forall i | 0 <= i < |fs.actions| && Running(fs.actions[i]) && fs.actions[i].target.Some? ::
          fs.actions[i].target.value > fs.capacity)
  }

  /** Nothing newer than a running update is one, and every update aims above those that were in effect before it. */
  ghost predicate UpdatesInOrder(fs: FileSystem) {
    && (forall i, j | 0 <= i < j < |fs.actions| && Running(fs.actions[j]) :: !fs.actions[i].isUpdate)
    && (forall i, j | 0 <= i < j < |fs.actions| && InEffect(fs.actions[j]) && Aims(fs.actions[i]) ::
          fs.actions[i].target.value > fs.actions[j].target.value)
  }

  /** What the service keeps over every run. */
  ghost predicate Sound(fs: FileSystem) {
    CapacityHolds(fs) && UpdatesInOrder(fs)
  }

  lemma NextKeepsSound(fs: FileSystem, step: ServiceStep)
    requires Sound(fs)
    ensures Sound(ServiceNext(fs, step))
    ensures fs.capacity <= ServiceNext(fs, step).capacity && ServiceNext(fs, step).tiering == fs.tiering
  {
    if Possible(fs, step) {
      match step
      case Update(target) => UpdateKeepsSound(fs, target);
      case OtherAction => OtherActionKeepsSound(fs);
      case Advance(i) => AdvanceKeepsSound(fs, i);
      case Fail(i) => FailKeepsSound(fs, i);
      case Forget(i) => ForgetKeepsSound(fs, i);
    }
  }

  lemma UpdateKeepsSound(fs: FileSystem, target: Option<Int32>)
    requires Sound(fs) && Admits(fs, target)
    ensures Sound(ServiceNext(fs, Update(target)))
  {
    var next := ServiceNext(fs, Update(target));
    assert forall i | 0 < i < |next.actions| :: next.actions[i] == fs.actions[i - 1];
  }

  lemma OtherActionKeepsSound(fs: FileSystem)
    requires Sound(fs)
    ensures Sound(ServiceNext(fs, OtherAction))
  {
    var next := ServiceNext(fs, OtherAction);
    assert forall i | 0 < i < |next.actions| :: next.actions[i] == fs.actions[i - 1];
  }

  lemma FailKeepsSound(fs: FileSystem, i: nat)
    requires Sound(fs) && Possible(fs, Fail(i))
    ensures Sound(ServiceNext(fs, Fail(i)))
  {
    var next := ServiceNext(fs, Fail(i));
    assert forall j | 0 <= j < |next.actions| && j != i :: next.actions[j] == fs.actions[j];
    assert !Running(next.actions[i]) && !InEffect(next.actions[i]);
  }

  lemma AdvanceKeepsSound(fs: FileSystem, i: nat)
    requires Sound(fs) && Possible(fs, Advance(i))
    ensures Sound(Advanced(fs, i)) && fs.capacity <= Advanced(fs, i).capacity
  {
    AdvanceKeepsCapacity(fs, i);
    AdvanceKeepsOrder(fs, i);
  }

  lemma AdvanceKeepsCapacity(fs: FileSystem, i: nat)
    requires Sound(fs) && Possible(fs, Advance(i))
    ensures CapacityHolds(Advanced(fs, i)) && fs.capacity <= Advanced(fs, i).capacity
  {
    var next := Advanced(fs, i);
    forall j | 0 <= j < |next.actions| && Running(next.actions[j]) && next.actions[j].target.Some?
      ensures next.actions[j].target.value > next.capacity
    {
      if j != i && Running(fs.actions[i]) {
        assert Running(fs.actions[j]);
      }
    }
  }

  lemma AdvanceKeepsOrder(fs: FileSystem, i: nat)
    requires UpdatesInOrder(fs) && Possible(fs, Advance(i))
    ensures UpdatesInOrder(Advanced(fs, i))
  {
    var next := Advanced(fs, i);
    assert forall j | 0 <= j < |next.actions| :: Aims(next.actions[j]) <==> Aims(fs.actions[j]);
    assert forall j | 0 <= j < |next.actions| && j != i :: next.actions[j] == fs.actions[j];
  }

  lemma ForgetKeepsSound(fs: FileSystem, i: nat)
    requires Sound(fs) && Possible(fs, Forget(i))
    ensures Sound(ServiceNext(fs, Forget(i)))
  {
    var next := ServiceNext(fs, Forget(i));
    assert forall j | 0 <= j < |next.actions| :: next.actions[j] == fs.actions[if j < i then j else j + 1];
  }

  lemma {:induction false} RunKeepsSound(fs: FileSystem, steps: seq<ServiceStep>)
    requires Sound(fs)
    ensures Sound(ServiceRun(fs, steps))
    ensures fs.capacity <= ServiceRun(fs, steps).capacity && ServiceRun(fs, steps).tiering == fs.tiering
  {
    if steps != [] {
      RunKeepsSound(fs, steps[..|steps| - 1]);
      NextKeepsSound(ServiceRun(fs, steps[..|steps| - 1]), steps[|steps| - 1]);
    }
  }

  // ---------- Looking an update up ----------

  predicate Matches(a: AdminAction, size: Int32) {
    a.isUpdate && a.target == Some(size)
  }

  /** The newest update that aims at the size. */
  method GetUpdateAction(fs: FileSystem, size: Int32) returns (found: Option<AdminAction>)
    ensures found == FirstMatch(fs.actions, size)
    ensures found.Some? ==> exists i ::
      && 0 <= i < |fs.actions| && found == Some(fs.actions[i]) && fs.actions[i].isUpdate
      && fs.actions[i].target == Some(size)
      && forall j | 0 <= j < i :: !(fs.actions[j].isUpdate && fs.actions[j].target == Some(size))
    ensures found.None? ==>
      forall i | 0 <= i < |fs.actions| :: !(fs.actions[i].isUpdate && fs.actions[i].target == Some(size))
  {
    FirstMatchIsNewest(fs.actions, size);
    for i := 0 to |fs.actions|
      invariant FirstMatch(fs.actions, size) == FirstMatch(fs.actions[i..], size)
    {
      if Matches(fs.actions[i], size) {
        return Some(fs.actions[i]);
      }
    }
    return None;
  }

  function FirstMatch(actions: seq<AdminAction>, size: Int32): Option<AdminAction> {
    if actions == [] then None
    else if Matches(actions[0], size) then Some(actions[0])
    else FirstMatch(actions[1..], size)
  }

  lemma {:induction false} FirstMatchIsNewest(actions: seq<AdminAction>, size: Int32)
    ensures FirstMatch(actions, size).Some? ==>
      exists i :: 0 <= i < |actions| && actions[i] == FirstMatch(actions, size).value && Matches(actions[i], size)
        && forall j | 0 <= j < i :: !Matches(actions[j], size)
    ensures FirstMatch(actions, size).None? ==> forall i | 0 <= i < |actions| :: !Matches(actions[i], size)
  {
    if actions != [] && !Matches(actions[0], size) {
      FirstMatchIsNewest(actions[1..], size);
      if FirstMatch(actions, size).Some? {
        var i :| 0 <= i < |actions[1..]| && actions[1..][i] == FirstMatch(actions[1..], size).value &&
          Matches(actions[1..][i], size)
          && forall j | 0 <= j < i :: !Matches(actions[1..][j], size);
        assert actions[i + 1] == actions[1..][i];
        assert forall j | 0 <= j < i + 1 :: actions[j] == if j == 0 then actions[0] else actions[1..][j - 1];
      } else {
        assert forall i | 0 < i < |actions| :: actions[i] == actions[1..][i - 1];
      }
    }
  }

  /** A finished update of the same size never hides the one that is running: the search meets the running one first. */
  lemma RunningUpdateIsFound(fs: FileSystem, size: Int32, i: nat)
    requires Sound(fs) && i < |fs.actions| && Running(fs.actions[i]) && Matches(fs.actions[i], size)
    ensures FirstMatch(fs.actions, size) == Some(fs.actions[i])
  {
    FirstMatchIsNewest(fs.actions, size);
  }

  /** The search finds an update of the size in effect exactly when there is one: no later failure of the same size can
      hide it, since the service would not have admitted the later update. */
  lemma InEffectIsFound(fs: FileSystem, size: Int32)
    requires Sound(fs)
    ensures FirstMatch(fs.actions, size).Some? && InEffect(FirstMatch(fs.actions, size).value)
      <==> exists i :: 0 <= i < |fs.actions| && Matches(fs.actions[i], size) && InEffect(fs.actions[i])
  {
    FirstMatchIsNewest(fs.actions, size);
    if i :| 0 <= i < |fs.actions| && Matches(fs.actions[i], size) && InEffect(fs.actions[i]) {
      var k :| 0 <= k < |fs.actions| && fs.actions[k] == FirstMatch(fs.actions, size).value &&
        Matches(fs.actions[k], size)
        && forall j | 0 <= j < k :: !Matches(fs.actions[j], size);
      if k < i {
        assert Aims(fs.actions[k]);
      }
    }
  }

  /** An update that is found to be in effect has been reached by the capacity, however old it is. */
  lemma FoundInEffect(fs: FileSystem, size: Int32)
    requires Sound(fs) && FirstMatch(fs.actions, size).Some? && InEffect(FirstMatch(fs.actions, size).value)
    ensures fs.capacity >= size
  {
    FirstMatchIsNewest(fs.actions, size);
  }

  // ---------- One expansion ----------

  datatype Answer = UpdateAccepted | AlreadyInProgress | UpdateRefused

  datatype Description = Described | DescribedMissing | DescribeFailed

  /** What the service does between two checks, and whether reading it then succeeds. */
  datatype Tick = Tick(steps: seq<ServiceStep>, readable: bool)

  /** Everything about the service that the driver does not control during one expansion. */
  datatype Schedule = Schedule(
    beforeDescribe: seq<ServiceStep>, description: Description,
    beforeUpdate: seq<ServiceStep>, answer: Answer,
    beforeLookup: Tick, ticks: nat -> Tick)

  /** The answer to an update request: accepted only if admitted, "already in progress" only if one is. */
  function ServiceAnswer(fs: FileSystem, size: Int32, answer: Answer): Answer {
    if answer.UpdateAccepted? && Admits(fs, Some(size)) then UpdateAccepted
    else if answer.AlreadyInProgress? && UpdateRunning(fs) then AlreadyInProgress
    else UpdateRefused
  }

  /** The file system at the `k`th check, counted from one; at zero, before any. */
  function AtCheck(fs: FileSystem, ticks: nat -> Tick, k: nat): FileSystem {
    if k == 0 then fs else ServiceRun(AtCheck(fs, ticks, k - 1), ticks(k - 1).steps)
  }

  function Observed(fs: FileSystem, ticks: nat -> Tick, size: Int32, k: nat): Option<AdminAction> {
    if ticks(k).readable then FirstMatch(AtCheck(fs, ticks, k + 1).actions, size) else None
  }

  function JudgeUpdate(seen: Option<AdminAction>): Verdict {
    if seen.None? then Broken
    else match seen.value.status
      case Pending => Waiting
      case InProgress => Waiting
      case UpdatedOptimizing => Ready
      case Completed => Ready
      case Failure => Broken
  }

  /** The file system as it stands in the service. */
  class Service {
    var fs: FileSystem

    constructor (fs: FileSystem)
      ensures this.fs == fs
    {
      this.fs := fs;
    }

    method Pass(steps: seq<ServiceStep>)
      modifies this
      ensures fs == ServiceRun(old(fs), steps)
    {
      for i := 0 to |steps|
        invariant fs == ServiceRun(old(fs), steps[..i])
      {
        assert steps[..i + 1][..i] == steps[..i];
        fs := ServiceNext(fs, steps[i]);
      }
      assert steps[..|steps|] == steps;
    }

    method UpdateFileSystem(size: Int32, wish: Answer) returns (answer: Answer)
      modifies this
      ensures answer == ServiceAnswer(old(fs), size, wish)
      ensures fs == if answer.UpdateAccepted? then ServiceNext(old(fs), Update(Some(size))) else old(fs)
    {
      answer := ServiceAnswer(fs, size, wish);
      if answer.UpdateAccepted? {
        fs := ServiceNext(fs, Update(Some(size)));
      }
    }
  }

  /** The file system after the driver's update request and the lookup that may follow it. */
  function AfterResize(fs: FileSystem, size: Int32, s: Schedule): FileSystem {
    match ServiceAnswer(fs, size, s.answer)
    case UpdateAccepted => ServiceNext(fs, Update(Some(size)))
    case AlreadyInProgress => ServiceRun(fs, s.beforeLookup.steps)
    case UpdateRefused => fs
  }

  /** A request that finds an update in progress is content with any update of its size on record. */
  predicate ResizeAccepted(fs: FileSystem, size: Int32, s: Schedule) {
    match ServiceAnswer(fs, size, s.answer)
    case UpdateAccepted => true
    case AlreadyInProgress => s.beforeLookup.readable &&
      FirstMatch(ServiceRun(fs, s.beforeLookup.steps).actions, size).Some?
    case UpdateRefused => false
  }

  method ResizeFileSystem(service: Service, size: Int32, s: Schedule) returns (ok: bool)
    modifies service
    ensures service.fs == AfterResize(old(service.fs), size, s)
    ensures ok <==> ResizeAccepted(old(service.fs), size, s)
    ensures ok <==>
      || (s.answer.UpdateAccepted? && Admits(old(service.fs), Some(size)))
      || (s.answer.AlreadyInProgress? && UpdateRunning(old(service.fs)) && s.beforeLookup.readable
          && FirstMatch(ServiceRun(old(service.fs), s.beforeLookup.steps).actions, size).Some?)
    ensures s.answer.UpdateAccepted? && Admits(old(service.fs), Some(size)) ==>
      service.fs == old(service.fs).(actions := [AdminAction(true, Some(size), Pending)] + old(service.fs).actions)
  {
    var answer := service.UpdateFileSystem(size, s.answer);
    if !answer.UpdateAccepted? {
      if answer.AlreadyInProgress? {
        service.Pass(s.beforeLookup.steps);
        if !s.beforeLookup.readable {
          return false;
        }
        var action := GetUpdateAction(service.fs, size);
        return action.Some?;
      }
      return false;
    }
    return true;
  }

  /** Check `k` can be made, and the newest update of the size that it meets has one of the statuses. */
  predicate Sees(fs: FileSystem, ticks: nat -> Tick, size: Int32, k: nat, statuses: set<Status>) {
    && ticks(k).readable
    && FirstMatch(AtCheck(fs, ticks, k + 1).actions, size).Some?
    && FirstMatch(AtCheck(fs, ticks, k + 1).actions, size).value.status in statuses
  }

  /** The update is seen in effect at check `k`, after nothing but running ones. */
  predicate InEffectAt(fs: FileSystem, ticks: nat -> Tick, size: Int32, k: nat) {
    && Sees(fs, ticks, size, k, {UpdatedOptimizing, Completed})
    && forall j: nat | j < k :: Sees(fs, ticks, size, j, {Pending, InProgress})
  }

  /** A check ends the wait with success, lets it go on, or, on any other sight, ends it with an error. */
  lemma JudgementIs(fs: FileSystem, ticks: nat -> Tick, size: Int32, k: nat)
    ensures JudgeUpdate(Observed(fs, ticks, size, k)).Ready? <==>
      && ticks(k).readable
      && FirstMatch(AtCheck(fs, ticks, k + 1).actions, size).Some?
      && FirstMatch(AtCheck(fs, ticks, k + 1).actions, size).value.status in {UpdatedOptimizing, Completed}
    ensures JudgeUpdate(Observed(fs, ticks, size, k)).Waiting? <==>
      && ticks(k).readable
      && FirstMatch(AtCheck(fs, ticks, k + 1).actions, size).Some?
      && FirstMatch(AtCheck(fs, ticks, k + 1).actions, size).value.status in {Pending, InProgress}
  {
  }

  lemma JudgementSees(fs: FileSystem, ticks: nat -> Tick, size: Int32, k: nat)
    ensures JudgeUpdate(Observed(fs, ticks, size, k)).Ready?
      <==> Sees(fs, ticks, size, k, {UpdatedOptimizing, Completed})
    ensures JudgeUpdate(Observed(fs, ticks, size, k)).Waiting? <==> Sees(fs, ticks, size, k, {Pending, InProgress})
  {
    JudgementIs(fs, ticks, size, k);
  }

  /** One of the checks that there is time for sees the update in effect, after nothing but running ones. */
  ghost predicate InTime(fs: FileSystem, ticks: nat -> Tick, size: Int32) {
    exists k: nat :: k < 60 && InEffectAt(fs, ticks, size, k)
  }

  method WaitForFileSystemResize(service: Service, size: Int32, ticks: nat -> Tick) returns (ok: bool, checks: nat)
    modifies service
    ensures checks <= 60 && service.fs == AtCheck(old(service.fs), ticks, checks)
    ensures ok <==> InTime(old(service.fs), ticks, size)
    ensures ok ==> checks > 0 && InEffectAt(old(service.fs), ticks, size, checks - 1)
    ensures ok <==> exists k: nat ::
      && k < 60 && Sees(old(service.fs), ticks, size, k, {UpdatedOptimizing, Completed})
      && forall j: nat | j < k :: Sees(old(service.fs), ticks, size, j, {Pending, InProgress})
  {
    var fs := service.fs;
    var observe := (k: nat) => Observed(fs, ticks, size, k);
    forall k: nat
      ensures JudgeUpdate(observe(k)).Ready? <==> Sees(fs, ticks, size, k, {UpdatedOptimizing, Completed})
      ensures JudgeUpdate(observe(k)).Waiting? <==> Sees(fs, ticks, size, k, {Pending, InProgress})
    {
      JudgementSees(fs, ticks, size, k);
    }
    forall k: nat | InEffectAt(fs, ticks, size, k)
      ensures Decides(observe, JudgeUpdate, k) && JudgeUpdate(observe(k)).Ready?
    {
    }
    var r;
    r, checks := Poll(observe, JudgeUpdate, MAX_CHECKS);
    ok := r.Done?;
    service.fs := AtCheck(fs, ticks, checks);
    if ok {
      assert InEffectAt(fs, ticks, size, checks - 1);
    }
  }

  lemma {:induction false} ChecksKeepSound(fs: FileSystem, ticks: nat -> Tick, k: nat)
    requires Sound(fs)
    ensures Sound(AtCheck(fs, ticks, k)) && fs.capacity <= AtCheck(fs, ticks, k).capacity
  {
    if k > 0 {
      ChecksKeepSound(fs, ticks, k - 1);
      RunKeepsSound(AtCheck(fs, ticks, k - 1), ticks(k - 1).steps);
    }
  }

  lemma ResizeKeepsSound(fs: FileSystem, size: Int32, s: Schedule)
    requires Sound(fs)
    ensures Sound(AfterResize(fs, size, s)) && fs.capacity <= AfterResize(fs, size, s).capacity
  {
    NextKeepsSound(fs, Update(Some(size)));
    RunKeepsSound(fs, s.beforeLookup.steps);
  }

  // ---------- No success on account of an old update ----------

  /** The file system as the driver's first call describes it. */
  function AtDescribe(fs: FileSystem, s: Schedule): FileSystem {
    ServiceRun(fs, s.beforeDescribe)
  }

  /** The file system at the check with number `k`, after the driver's update request. */
  function AtEnd(fs: FileSystem, size: Int32, s: Schedule, k: nat): FileSystem {
    AtCheck(AfterResize(ServiceRun(AtDescribe(fs, s), s.beforeUpdate), size, s), s.ticks, k)
  }

  /** If the file system was described as too small and its update is then seen in effect, the capacity has been reached
      in between: no update of that size was in effect when the expansion began, whichever entry the search met. */
  lemma SuccessIsNeverStale(fs: FileSystem, size: Int32, s: Schedule, k: nat)
    requires Sound(fs) && AtDescribe(fs, s).capacity < size
    requires InEffectAt(AfterResize(ServiceRun(AtDescribe(fs, s), s.beforeUpdate), size, s), s.ticks, size, k)
    ensures AtDescribe(fs, s).capacity < size <= AtEnd(fs, size, s, k + 1).capacity
    ensures forall i | 0 <= i < |AtDescribe(fs, s).actions| && Matches(AtDescribe(fs, s).actions[i], size) ::
      !InEffect(AtDescribe(fs, s).actions[i])
  {
    var described := AtDescribe(fs, s);
    var asked := ServiceRun(described, s.beforeUpdate);
    RunKeepsSound(fs, s.beforeDescribe);
    RunKeepsSound(described, s.beforeUpdate);
    ResizeKeepsSound(asked, size, s);
    FoundInEffectAtCheck(AfterResize(asked, size, s), s.ticks, size, k);
  }

  /** Until an accepted update is over, every readable check waits for it. */
  lemma RunningUpdateIsAwaited(fs: FileSystem, ticks: nat -> Tick, size: Int32, k: nat, i: nat)
    requires Sound(fs) && ticks(k).readable
    requires i < |AtCheck(fs, ticks, k + 1).actions|
    requires Running(AtCheck(fs, ticks, k + 1).actions[i]) && Matches(AtCheck(fs, ticks, k + 1).actions[i], size)
    ensures JudgeUpdate(Observed(fs, ticks, size, k)).Waiting?
  {
    ChecksKeepSound(fs, ticks, k + 1);
    RunningUpdateIsFound(AtCheck(fs, ticks, k + 1), size, i);
  }

  /** A readable check reports success exactly when an update of the size is in effect, whatever else is on record. */
  lemma ReadyMeansInEffect(fs: FileSystem, ticks: nat -> Tick, size: Int32, k: nat)
    requires Sound(fs) && ticks(k).readable
    ensures var seen := AtCheck(fs, ticks, k + 1).actions;
            JudgeUpdate(Observed(fs, ticks, size, k)).Ready?
            <==> exists i :: 0 <= i < |seen| && Matches(seen[i], size) && InEffect(seen[i])
  {
    ChecksKeepSound(fs, ticks, k + 1);
    InEffectIsFound(AtCheck(fs, ticks, k + 1), size);
    FirstMatchIsNewest(AtCheck(fs, ticks, k + 1).actions, size);
  }

  // ---------- The controller's request ----------

  datatype Code = InvalidArgument | Aborted | OutOfRange | Internal | NotFound | Unimplemented

  /** A capacity range; a limit of zero or less is no limit. */
  datatype CapacityRange = CapacityRange(required: Int64, limit: Int64)

  datatype Reply = Expanded(bytes: Int64) | Error(code: Code)

  /** What is checked of the request before any resource is looked at. */
  function RangeError(range: Option<CapacityRange>): Option<Code> {
    if range.None? then Some(InvalidArgument)
    else if range.value.limit > 0 && range.value.required > range.value.limit then Some(OutOfRange)
    else if BytesToGiB(range.value.required).None? then Some(InvalidArgument)
    else None
  }

  /** Whether the expansion of a file system comes to ask for more capacity. */
  predicate Asks(fs: FileSystem, size: Int32, s: Schedule) {
    s.description.Described? && !fs.tiering && size > AtDescribe(fs, s).capacity
  }

  /** Whether what was asked for is accepted and seen in effect in time. */
  ghost predicate Achieved(fs: FileSystem, size: Int32, s: Schedule) {
    AchievedFrom(AtDescribe(fs, s), size, s)
  }

  /** The same from the moment of the description on. */
  ghost predicate AchievedFrom(described: FileSystem, size: Int32, s: Schedule) {
    var asked := ServiceRun(described, s.beforeUpdate);
    ResizeAccepted(asked, size, s) && InTime(AfterResize(asked, size, s), s.ticks, size)
  }

  /** Achieved without the predicates: the update is taken up, or one of its size is on record while one is in progress,
      and some check in time sees it in effect after nothing but running ones. */
  lemma AchievedMeans(fs: FileSystem, size: Int32, s: Schedule)
    ensures
      var asked := ServiceRun(ServiceRun(fs, s.beforeDescribe), s.beforeUpdate);
      var after := AfterResize(asked, size, s);
      Achieved(fs, size, s) <==>
      && (|| (s.answer.UpdateAccepted? && Admits(asked, Some(size)))
          || (s.answer.AlreadyInProgress? && UpdateRunning(asked) && s.beforeLookup.readable
              && FirstMatch(ServiceRun(asked, s.beforeLookup.steps).actions, size).Some?))
      && InTime(after, s.ticks, size)
  {
  }

  /** The error of an expansion that fails for the file system's sake. */
  function FileSystemCode(fs: FileSystem, s: Schedule): Code {
    match s.description
    case DescribedMissing => NotFound
    case DescribeFailed => Internal
    case Described => if fs.tiering then Unimplemented else Internal
  }

  /** The request gets as far as looking at its file system. */
  predicate Considered(busy: set<string>, id: string, range: Option<CapacityRange>) {
    id != "" && id !in busy && RangeError(range).None? && BeforeFirst(id, '-') == "fs"
  }

  /** Where an expansion leaves the file system: as the driver last saw it. */
  ghost predicate LeftAt(fs: FileSystem, requested: Option<Int32>, s: Schedule, ok: bool, now: FileSystem) {
    if requested.None? then now == AtDescribe(fs, s)
    else LeftAfter(AtDescribe(fs, s), requested.value, s, ok, now)
  }

  /** The same from the moment of the description on: after some check, the last one being that of a success. */
  ghost predicate LeftAfter(described: FileSystem, size: Int32, s: Schedule, ok: bool, now: FileSystem) {
    var resized := AfterResize(ServiceRun(described, s.beforeUpdate), size, s);
    exists k: nat :: k <= 60 && now == AtCheck(resized, s.ticks, k) &&
      (ok ==> k > 0 && InEffectAt(resized, s.ticks, size, k - 1))
  }

  method ControllerExpandVolume(inFlight: InFlight.InFlight, service: Service, id: string, range: Option<CapacityRange>,
                                s: Schedule)
    returns (reply: Reply, requested: Option<Int32>)
    requires Sound(service.fs)
    modifies inFlight, service
    ensures inFlight.Keys() == old(inFlight.Keys()) && Sound(service.fs)
    ensures id == "" ==> reply == Error(InvalidArgument)
    ensures id != "" && id in old(inFlight.Keys()) ==> reply == Error(Aborted)
    ensures id != "" && id !in old(inFlight.Keys()) && RangeError(range).Some? ==>
      reply == Error(RangeError(range).value)
    ensures id != "" && id !in old(inFlight.Keys()) && RangeError(range).None? && BeforeFirst(id, '-') != "fs" ==>
      reply == Error(if BeforeFirst(id, '-') == "fsvol" then Unimplemented else NotFound)
    ensures !Considered(old(inFlight.Keys()), id, range) ==> requested.None? && service.fs == old(service.fs)
    ensures Considered(old(inFlight.Keys()), id, range) ==>
      var size := BytesToGiB(range.value.required).value;
      && requested == (if Asks(old(service.fs), size, s) then Some(size) else None)
      && LeftAt(old(service.fs), requested, s, reply.Expanded?, service.fs)
      && (reply.Expanded? <==>
            && s.description.Described? && !old(service.fs).tiering
            && (requested.Some? ==> Achieved(old(service.fs), size, s)))
      && (reply.Error? ==> reply.code == FileSystemCode(old(service.fs), s))
    ensures reply.Expanded? ==>
      && Considered(old(inFlight.Keys()), id, range)
      && BytesToGiB(range.value.required).value <= service.fs.capacity
      && reply.bytes <= GiBToBytes(service.fs.capacity)
      && reply.bytes == GiBToBytes(if requested.Some? then requested.value else AtDescribe(old(service.fs), s).capacity)
    ensures id != "" && id !in old(inFlight.Keys()) ==>
      && (range.None? ==> reply == Error(InvalidArgument))
      && (range.Some? && range.value.limit > 0 && range.value.required > range.value.limit ==>
          reply == Error(OutOfRange))
      && ((range.Some? && !(range.value.limit > 0 && range.value.required > range.value.limit)
           && BytesToGiB(range.value.required).None?) ==> reply == Error(InvalidArgument))
    ensures requested.Some? <==>
      && id != "" && id !in old(inFlight.Keys()) && BeforeFirst(id, '-') == "fs"
      && range.Some? && !(range.value.limit > 0 && range.value.required > range.value.limit)
      && BytesToGiB(range.value.required).Some?
      && s.description.Described? && !old(service.fs).tiering
      && BytesToGiB(range.value.required).value > ServiceRun(old(service.fs), s.beforeDescribe).capacity
    ensures requested.Some? ==> requested == BytesToGiB(range.value.required)
    ensures id != "" && id !in old(inFlight.Keys()) && BeforeFirst(id, '-') == "fs"
            && range.Some? && !(range.value.limit > 0 && range.value.required > range.value.limit)
            && BytesToGiB(range.value.required).Some? ==>
      && (s.description.DescribedMissing? ==> reply == Error(NotFound))
      && (s.description.DescribeFailed? ==> reply == Error(Internal))
      && (s.description.Described? && old(service.fs).tiering ==> reply == Error(Unimplemented))
      && (s.description.Described? && !old(service.fs).tiering ==> reply.Expanded? || reply == Error(Internal))
    ensures requested.Some? ==>
      var asked := ServiceRun(ServiceRun(old(service.fs), s.beforeDescribe), s.beforeUpdate);
      var after := AfterResize(asked, requested.value, s);
      reply.Expanded? <==>
      && (|| (s.answer.UpdateAccepted? && Admits(asked, Some(requested.value)))
          || (s.answer.AlreadyInProgress? && UpdateRunning(asked) && s.beforeLookup.readable
              && FirstMatch(ServiceRun(asked, s.beforeLookup.steps).actions, requested.value).Some?))
      && InTime(after, s.ticks, requested.value)
    ensures reply.Expanded? ==>
      (reply.bytes >= range.value.required <==>
         || range.value.required <= 0 || range.value.required % GIB == 0
         || AtDescribe(old(service.fs), s).capacity > BytesToGiB(range.value.required).value)
  {
    requested := None;
    if id == "" {
      return Error(InvalidArgument), None;
    }
    var ok := inFlight.Insert(id);
    if !ok {
      return Error(Aborted), None;
    }
    var rangeError := RangeError(range);
    if rangeError.Some? {
      reply := Error(rangeError.value);
    } else if BeforeFirst(id, '-') == "fs" {
      reply, requested := ExpandFileSystem(service, BytesToGiB(range.value.required).value, s);
      BytesSuffice(range.value.required, AtDescribe(old(service.fs), s).capacity);
      AchievedMeans(old(service.fs), BytesToGiB(range.value.required).value, s);
    } else {
      reply := Error(if BeforeFirst(id, '-') == "fsvol" then Unimplemented else NotFound);
    }
    inFlight.Delete(id);
  }

  /** Whether the size that a success reports, the greater of request and capacity, covers the requirement. */
  lemma BytesSuffice(required: Int64, capacity: Int32)
    requires BytesToGiB(required).Some? && capacity >= 0
    ensures var size := BytesToGiB(required).value;
            GiBToBytes(if size > capacity then size else capacity) >= required
            <==> required <= 0 || required % GIB == 0 || capacity > size
  {
    if required >= 0 {
      RoundsDown(required);
    }
  }

  method ExpandFileSystem(service: Service, newCapacity: Int32, s: Schedule)
    returns (reply: Reply, requested: Option<Int32>)
    requires Sound(service.fs)
    modifies service
    ensures Sound(service.fs) && AtDescribe(old(service.fs), s).capacity >= 0
    ensures requested == if Asks(old(service.fs), newCapacity, s) then Some(newCapacity) else None
    ensures LeftAt(old(service.fs), requested, s, reply.Expanded?, service.fs)
    ensures reply.Expanded? <==>
      && s.description.Described? && !old(service.fs).tiering
      && (requested.Some? ==> Achieved(old(service.fs), newCapacity, s))
    ensures reply.Error? ==> reply.code == FileSystemCode(old(service.fs), s)
    ensures reply.Expanded? ==>
      && newCapacity <= service.fs.capacity && reply.bytes <= GiBToBytes(service.fs.capacity)
      && reply.bytes == GiBToBytes(if requested.Some? then newCapacity else AtDescribe(old(service.fs), s).capacity)
  {
    ghost var fs := service.fs;
    RunKeepsSound(fs, s.beforeDescribe);
    service.Pass(s.beforeDescribe);
    if !s.description.Described? {
      return Error(if s.description.DescribedMissing? then NotFound else Internal), None;
    }
    var described := service.fs;
    if described.tiering {
      return Error(Unimplemented), None;
    }
    if newCapacity <= described.capacity {
      return Expanded(GiBToBytes(described.capacity)), None;
    }
    requested := Some(newCapacity);
    var ok := AskForMore(service, newCapacity, s);
    reply := if ok then Expanded(GiBToBytes(newCapacity)) else Error(Internal);
  }

  /** The update request, and the wait for its effect. */
  method AskForMore(service: Service, size: Int32, s: Schedule) returns (ok: bool)
    requires Sound(service.fs)
    modifies service
    ensures Sound(service.fs)
    ensures ok <==> AchievedFrom(old(service.fs), size, s)
    ensures LeftAfter(old(service.fs), size, s, ok, service.fs)
    ensures ok ==> size <= service.fs.capacity
  {
    RunKeepsSound(service.fs, s.beforeUpdate);
    service.Pass(s.beforeUpdate);
    ghost var asked := service.fs;
    ResizeKeepsSound(asked, size, s);
    ok := ResizeFileSystem(service, size, s);
    if !ok {
      assert service.fs == AtCheck(AfterResize(asked, size, s), s.ticks, 0);
      return;
    }
    var checks;
    ok, checks := WaitForFileSystemResize(service, size, s.ticks);
    ChecksKeepSound(AfterResize(asked, size, s), s.ticks, checks);
    if ok {
      FoundInEffectAtCheck(AfterResize(asked, size, s), s.ticks, size, checks - 1);
    }
  }

  lemma FoundInEffectAtCheck(fs: FileSystem, ticks: nat -> Tick, size: Int32, k: nat)
    requires Sound(fs) && InEffectAt(fs, ticks, size, k)
    ensures size <= AtCheck(fs, ticks, k + 1).capacity
  {
    ChecksKeepSound(fs, ticks, k + 1);
    FirstMatchIsNewest(AtCheck(fs, ticks, k + 1).actions, size);
    FoundInEffect(AtCheck(fs, ticks, k + 1), size);
  }

  /** The size asked of the service stays within the requirement, and so within the limit, exactly when the requirement
      is not so negative that its conversion to GiB wraps around. */
  lemma RequestStaysWithinLimit(fs: FileSystem, range: CapacityRange, s: Schedule)
    requires Sound(fs) && RangeError(Some(range)).None? && Asks(fs, BytesToGiB(range.required).value, s)
    ensures GiBToBytes(BytesToGiB(range.required).value) <= range.required <==> range.required > -0x8000_0001 * GIB
    ensures range.required > -0x8000_0001 * GIB && range.limit > 0 ==>
      GiBToBytes(BytesToGiB(range.required).value) <= range.limit
  {
    RunKeepsSound(fs, s.beforeDescribe);
    if range.required < 0 {
      NegativeSizes(range.required);
    } else {
      RoundsDown(range.required);
    }
  }

  /** A requirement that low exists: it keeps to its limit, and makes the driver ask for the largest size there is. */
  lemma WrappedRequirement(fs: FileSystem, s: Schedule)
    requires Sound(fs) && s.description.Described? && !fs.tiering && AtDescribe(fs, s).capacity < MAX_INT32
    ensures var range := CapacityRange(-0x8000_0001 * GIB, GIB);
            && RangeError(Some(range)).None? && BytesToGiB(range.required) == Some(MAX_INT32) && Asks(fs, MAX_INT32, s)
            && GiBToBytes(MAX_INT32) > range.limit
  {
  }
}
