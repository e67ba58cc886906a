/** The node's two handlers as they are written: one call from beginning to end, which is one run of the machine. */
module NodeService {
  import opened Parameters
  import opened NodeMounts
  import MountOptions
  import InFlight

  datatype Code = InvalidArgument | Aborted | PermissionDenied | Internal

  datatype Reply = Ok | Error(code: Code)

  /** The mount command's error, as far as the driver tells errors apart. */
  datatype MountError = Permission | InvalidOption | OtherError

  /** What the mounter answers, where its answer is not determined by the target. */
  datatype Faults = Faults(
    makeDirOk: bool, readable: bool, saysNotMounted: bool, clearOk: bool, mountError: Option<MountError>,
    unmountOk: bool, removeOk: bool)

  datatype PublishRequest = PublishRequest(
    volumeId: string, capabilityGiven: bool, capabilitySupported: bool, targetPath: string,
    readOnly: bool, flags: Option<seq<string>>, dnsName: string, volumePath: string, resourceType: string)

  datatype MountCall = MountCall(source: string, options: seq<string>)

  const ROOT_VOLUME_PATH := "fsx"

  /** What is mounted: a file system only by its root volume, a volume only by its own path. */
  function MountSource(req: PublishRequest): Option<string> {
    if req.dnsName == "" then None
    else if req.resourceType == "filesystem" then
      if req.volumePath == "" || req.volumePath == ROOT_VOLUME_PATH then Some(req.dnsName + ":" + ROOT_VOLUME_PATH)
      else None
    else if req.resourceType == "volume" then
      if req.volumePath == "" then None else Some(req.dnsName + ":" + req.volumePath)
    else None
  }

  /** The source a publishing handler works with; one that finds none is turned away before it matters. */
  function SourceOf(req: PublishRequest): string {
    if MountSource(req).Some? then MountSource(req).value else ""
  }

  /** The probe of a target, given whether it can be read. */
  function ProbeOf(t: Target, f: Faults): Probe {
    if !f.readable then Unreadable(f.saysNotMounted)
    else if !t.present then NotExisting
    else if t.mounts == [] then NotMounted
    else if Top(t).value.Healthy? then IsMounted
    else StaleMount
  }

  lemma ProbeIsTruthful(t: Target, f: Faults)
    ensures Truthful(t, ProbeOf(t, f))
  {
    if t.mounts != [] {
      assert Top(t).value.Healthy? || Top(t).value.Corrupted?;
    }
  }

  /** The state while handler `h` runs in state `s`. */
  function Working(s: State, h: nat, handler: Handler, targets: map<string, Target>): State {
    var key := Key(handler.volume, handler.target);
    State(InFlight.State(s.lock.table + {key}, s.lock.running[h := key]), s.handlers[h := handler], targets)
  }

  lemma Enters(s: State, h: nat, op: Operation, volume: string, target: string, source: string)
    requires h !in s.handlers && h !in s.lock.running && Key(volume, target) !in s.lock.table
    ensures Step(s, Enter(h, op, volume, target, source))
      == Working(s, h, Handler(op, volume, target, source, if op.Publish? then Entered else Probing), s.targets)
  {
  }

  /** Where a handler goes with an action of its own. */
  function PcAfter(op: Operation, a: Action): Pc {
    match a
    case MakeDir(_, ok) => if ok then Probing else Leaving(false)
    case Look(_, probe) => if op.Publish? then AfterPublishProbe(probe) else AfterUnpublishProbe(probe)
    case Clear(_, ok) => if ok then Mounting else Leaving(false)
    case DoMount(_, ok) => Leaving(ok)
    case DoUnmount(_, ok) => if ok then Removing else Leaving(false)
    case RemoveAll(_, ok) => Leaving(ok)
    case _ => Leaving(false)
  }

  function Popped(targets: map<string, Target>, path: string): map<string, Target> {
    var t := At(targets, path);
    if t.mounts == [] then targets else targets[path := Pop(t)]
  }

  /** What the action does to the targets. */
  function TargetsAfter(targets: map<string, Target>, path: string, source: string, a: Action): map<string, Target> {
    var t := At(targets, path);
    match a
    case MakeDir(_, ok) => if ok then targets[path := t.(present := true)] else targets
    case Clear(_, ok) => if ok then Popped(targets, path) else targets
    case DoMount(_, ok) => if ok then targets[path := Target(true, t.mounts + [Healthy(source)])] else targets
    case DoUnmount(_, ok) => if ok then Popped(targets, path) else targets
    case RemoveAll(_, ok) => if ok then targets[path := t.(present := false)] else targets
    case _ => targets
  }

  /** Whether the running handler can take the action. */
  predicate CanTake(handler: Handler, h: nat, t: Target, a: Action) {
    match a
    case Reject(g) => g == h && handler.pc.Entered?
    case MakeDir(g, _) => g == h && handler.pc.Entered?
    case Look(g, probe) => g == h && handler.pc.Probing? && Truthful(t, probe)
    case Clear(g, ok) => g == h && handler.pc.Clearing? && (ok ==> t.mounts != [])
    case DoMount(g, _) => g == h && handler.pc.Mounting?
    case DoUnmount(g, ok) => g == h && handler.pc.Unmounting? && (ok ==> t.mounts != [])
    case RemoveAll(g, _) => g == h && handler.pc.Removing?
    case _ => false
  }

  lemma StepWorking(s: State, h: nat, handler: Handler, targets: map<string, Target>, a: Action)
    requires CanTake(handler, h, At(targets, handler.target), a)
    ensures Step(Working(s, h, handler, targets), a)
      == Working(s, h, handler.(pc := PcAfter(handler.op, a)), TargetsAfter(targets, handler.target, handler.source, a))
  {
    var w := Working(s, h, handler, targets);
    assert At(w.targets, handler.target) == At(targets, handler.target);
    assert Enabled(w, a);
    assert forall pc :: s.handlers[h := handler][h := handler.(pc := pc)] == s.handlers[h := handler.(pc := pc)];
  }

  /** One more action of the running handler. */
  lemma Act(s: State, h: nat, handler: Handler, targets: map<string, Target>, trace: seq<Action>, a: Action)
    returns (longer: seq<Action>)
    requires Run(s, trace) == Working(s, h, handler, targets)
    requires CanTake(handler, h, At(targets, handler.target), a)
    ensures longer == trace + [a]
    ensures Run(s, longer)
      == Working(s, h, handler.(pc := PcAfter(handler.op, a)), TargetsAfter(targets, handler.target, handler.source, a))
  {
    longer := trace + [a];
    RunStep(s, trace, a);
    StepWorking(s, h, handler, targets, a);
  }

  lemma Returns(s: State, h: nat, handler: Handler, targets: map<string, Target>)
    requires h !in s.handlers && h !in s.lock.running && Key(handler.volume, handler.target) !in s.lock.table
    requires handler.pc.Leaving? || handler.pc.LeavingBlind?
    ensures Step(Working(s, h, handler, targets), Return(h)) == s.(targets := targets)
  {
    var key := Key(handler.volume, handler.target);
    var after := Step(Working(s, h, handler, targets), Return(h));
    assert (s.lock.table + {key}) - {key} == s.lock.table;
    assert s.lock.running[h := key] - {h} == s.lock.running;
    assert s.handlers[h := handler] - {h} == s.handlers;
  }

  /** The run's handler enters once, as `entered`, and its last act is to return from `handler`'s position. */
  ghost predicate IsCall(s: State, trace: seq<Action>, h: nat, handler: Handler, targets: map<string, Target>) {
    && |trace| >= 2
    && trace[0] == Enter(h, handler.op, handler.volume, handler.target, handler.source)
    && (forall i | 0 < i < |trace| :: !trace[i].Enter? && !trace[i].ServerChange?)
    && trace[|trace| - 1] == Return(h)
    && Run(s, trace[..|trace| - 1]) == Working(s, h, handler, targets)
    && Run(s, trace) == s.(targets := targets)
  }

  /** The part of a call that lies behind it when `handler` describes where it stands. */
  ghost predicate UnderWay(s: State, trace: seq<Action>, h: nat, handler: Handler, targets: map<string, Target>) {
    && h !in s.handlers && h !in s.lock.running && Key(handler.volume, handler.target) !in s.lock.table
    && trace != [] && trace[0] == Enter(h, handler.op, handler.volume, handler.target, handler.source)
    && (forall i | 0 < i < |trace| :: !trace[i].Enter? && !trace[i].ServerChange?)
    && Run(s, trace) == Working(s, h, handler, targets)
  }

  lemma Begin(s: State, h: nat, op: Operation, volume: string, target: string, source: string)
    returns (trace: seq<Action>)
    requires h !in s.handlers && h !in s.lock.running && Key(volume, target) !in s.lock.table
    ensures UnderWay(s, trace, h, Handler(op, volume, target, source, if op.Publish? then Entered else Probing),
                     s.targets)
  {
    trace := [] + [Enter(h, op, volume, target, source)];
    RunStep(s, [], Enter(h, op, volume, target, source));
    Enters(s, h, op, volume, target, source);
  }

  lemma Proceed(s: State, h: nat, handler: Handler, targets: map<string, Target>, trace: seq<Action>, a: Action)
    returns (longer: seq<Action>)
    requires UnderWay(s, trace, h, handler, targets) && CanTake(handler, h, At(targets, handler.target), a)
    ensures UnderWay(s, longer, h, handler.(pc := PcAfter(handler.op, a)),
                     TargetsAfter(targets, handler.target, handler.source, a))
  {
    longer := Act(s, h, handler, targets, trace, a);
  }

  lemma End(s: State, h: nat, handler: Handler, targets: map<string, Target>, trace: seq<Action>)
    returns (call: seq<Action>)
    requires UnderWay(s, trace, h, handler, targets) && (handler.pc.Leaving? || handler.pc.LeavingBlind?)
    ensures IsCall(s, call, h, handler, targets)
  {
    call := trace + [Return(h)];
    RunStep(s, trace, Return(h));
    Returns(s, h, handler, targets);
    assert call[..|call| - 1] == trace;
  }

  /** A whole call made in a safe state leaves a safe state, and on its target what its position stands for: one mount
      after a publish that reports success, none after an unpublish that could see its target. */
  lemma CallIsSafe(s: State, trace: seq<Action>, h: nat, handler: Handler, targets: map<string, Target>,
                   owner: string -> string)
    requires Safe(s, owner) && IsCall(s, trace, h, handler, targets) && handler.volume == owner(handler.target)
    ensures Safe(s.(targets := targets), owner)
    ensures Assured(handler, At(targets, handler.target))
  {
    var n := |trace| - 1;
    RunKeepsSafe(s, trace, owner);
    RunKeepsSafe(s, trace[..n], owner);
    assert Working(s, h, handler, targets).handlers[h] == handler;
  }

  /** The service, with the mounts it has made. */
  class NodeService {
    const inFlight: InFlight.InFlight
    var targets: map<string, Target>

    constructor ()
      ensures fresh(inFlight) && inFlight.Keys() == {} && targets == map[]
    {
      inFlight := new InFlight.InFlight();
      targets := map[];
    }

    /** The machine's state is this service's state. */
    ghost predicate Mirrors(s: State)
      reads this, inFlight
    {
      s.lock.table == inFlight.Keys() && s.targets == targets
    }

    method Unmount(path: string, ok: bool) returns (done: bool)
      modifies this`targets
      ensures done <==> ok && At(old(targets), path).mounts != []
      ensures targets == if done then old(targets)[path := Pop(At(old(targets), path))] else old(targets)
    {
      done := ok && At(targets, path).mounts != [];
      if done {
        targets := targets[path := Pop(At(targets, path))];
      }
    }

    /** Whether the target is mounted; a stale mount is taken away first. */
    method IsMounted(path: string, f: Faults) returns (mounted: bool, ok: bool)
      modifies this`targets
      ensures var probe := ProbeOf(At(old(targets), path), f);
              && (probe.StaleMount? ==>
                    && !mounted && ok == f.clearOk
                    && targets == if f.clearOk then old(targets)[path := Pop(At(old(targets), path))] else old(targets))
              && (!probe.StaleMount? ==>
                    targets == old(targets) && ok == !probe.Unreadable? && mounted == probe.IsMounted?)
      ensures var t := At(old(targets), path);
              if !f.readable then !mounted && !ok && targets == old(targets)
              else if !t.present || t.mounts == [] then !mounted && ok && targets == old(targets)
              else if t.mounts[|t.mounts| - 1].Healthy? then mounted && ok && targets == old(targets)
              else if !f.clearOk then !mounted && !ok && targets == old(targets)
              else !mounted && ok && targets == old(targets)[path := Target(t.present, t.mounts[..|t.mounts| - 1])]
    {
      var probe := ProbeOf(At(targets, path), f);
      if probe.StaleMount? || probe.Unreadable? {
        if probe.StaleMount? {
          ok := Unmount(path, f.clearOk);
          return false, ok;
        }
        return false, false;
      }
      if probe.NotExisting? {
        return false, true;
      }
      return probe.IsMounted?, true;
    }

    /** Publishes a volume. Unless it is turned away, the call is a run of the machine in which this handler enters,
        acts and returns, and it reports success exactly from the position that stands for success. */
    method NodePublishVolume(req: PublishRequest, f: Faults, ghost s: State, ghost h: nat)
      returns (reply: Reply, call: Option<MountCall>, ghost trace: seq<Action>)
      requires Mirrors(s) && h !in s.handlers && h !in s.lock.running
      modifies inFlight, this`targets
      ensures inFlight.Keys() == old(inFlight.Keys())
      ensures var valid := req.volumeId != "" && req.capabilityGiven && req.capabilitySupported && req.targetPath != "";
              && (!valid ==> reply == Error(InvalidArgument) && targets == old(targets) && call.None?)
              && (valid && Key(req.volumeId, req.targetPath) in old(inFlight.Keys()) ==>
                    reply == Error(Aborted) && targets == old(targets) && call.None?)
              && (valid && Key(req.volumeId, req.targetPath) !in old(inFlight.Keys()) ==>
                    && reply == PublishReply(req, f, At(old(targets), req.targetPath))
                    && (call.Some? <==> Mounts(req, f, At(old(targets), req.targetPath)))
                    && IsCall(s, trace, h, Handler(Operation.Publish, req.volumeId, req.targetPath, SourceOf(req),
                                                   Leaving(reply.Ok?)), targets))
      ensures call.Some? ==> MountSource(req) == Some(call.value.source) && call.value.options == OptionsOf(req)
      ensures call.Some? ==>
        && req.dnsName != ""
        && (req.resourceType == "filesystem" || req.resourceType == "volume")
        && (req.resourceType == "filesystem" ==>
              (req.volumePath == "" || req.volumePath == "fsx") && call.value.source == req.dnsName + ":fsx")
        && (req.resourceType == "volume" ==>
              req.volumePath != "" && call.value.source == req.dnsName + ":" + req.volumePath)
        && (forall x ::
              x in call.value.options <==> (req.readOnly && x == "ro") || (req.flags.Some? && x in req.flags.value))
      ensures var path, t := req.targetPath, At(old(targets), req.targetPath);
              req.volumeId != "" && req.capabilityGiven && req.capabilitySupported && path != ""
              && req.volumeId + path !in old(inFlight.Keys()) ==>
                if req.dnsName == ""
                   || (req.resourceType != "filesystem" && req.resourceType != "volume")
                   || (req.resourceType == "volume" && req.volumePath == "")
                   || (req.resourceType == "filesystem" && req.volumePath != "" && req.volumePath != "fsx")
                then reply == Error(InvalidArgument) && call.None? && targets == old(targets)
                else if !f.makeDirOk then reply == Error(Internal) && call.None? && targets == old(targets)
                else if !f.readable
                then reply == Error(Internal) && call.None? && targets == old(targets)[path := Target(true, t.mounts)]
                else if t.mounts != [] && t.mounts[|t.mounts| - 1].Healthy?
                then reply == Ok && call.None? && targets == old(targets)[path := Target(true, t.mounts)]
                else if t.mounts != [] && !f.clearOk
                then reply == Error(Internal) && call.None? && targets == old(targets)[path := Target(true, t.mounts)]
                else
                  var left := if t.mounts == [] then [] else t.mounts[..|t.mounts| - 1];
                  && call.Some?
                  && targets == old(targets)[path :=
                       Target(true, left + if f.mountError.None? then [Healthy(call.value.source)] else [])]
                  && (f.mountError == None ==> reply == Ok)
                  && (f.mountError == Some(Permission) ==> reply == Error(PermissionDenied))
                  && (f.mountError == Some(InvalidOption) ==> reply == Error(InvalidArgument))
                  && (f.mountError == Some(OtherError) ==> reply == Error(Internal))
    {
      SourceMeans(req);
      OptionsMean(req);
      PublishMeans(req, f, targets);
      trace, call := [], None;
      if req.volumeId == "" || !req.capabilityGiven || !req.capabilitySupported || req.targetPath == "" {
        return Error(InvalidArgument), call, trace;
      }
      var key := Key(req.volumeId, req.targetPath);
      var ok := inFlight.Insert(key);
      if !ok {
        return Error(Aborted), call, trace;
      }
      trace := Begin(s, h, Operation.Publish, req.volumeId, req.targetPath, SourceOf(req));
      reply, call, trace := PublishLocked(req, f, s, h, trace);
      trace := End(s, h, Handler(Operation.Publish, req.volumeId, req.targetPath, SourceOf(req), Leaving(reply.Ok?)),
                   targets, trace);
      inFlight.Delete(key);
    }

    /** The part of publishing that runs under the lock. */
    method PublishLocked(req: PublishRequest, f: Faults, ghost s: State, ghost h: nat, ghost entered: seq<Action>)
      returns (reply: Reply, call: Option<MountCall>, ghost trace: seq<Action>)
      requires UnderWay(s, entered, h, Handler(Operation.Publish, req.volumeId, req.targetPath, SourceOf(req), Entered),
                        targets)
      modifies this`targets
      ensures UnderWay(s, trace, h, Handler(Operation.Publish, req.volumeId, req.targetPath, SourceOf(req),
                                            Leaving(reply.Ok?)), targets)
      ensures reply == PublishReply(req, f, At(old(targets), req.targetPath))
      ensures call.Some? <==> Mounts(req, f, At(old(targets), req.targetPath))
      ensures call.Some? ==> MountSource(req) == Some(call.value.source) && call.value.options == OptionsOf(req)
      ensures targets == Published(old(targets), req, f)
    {
      ghost var handler := Handler(Operation.Publish, req.volumeId, req.targetPath, SourceOf(req), Entered);
      var path := req.targetPath;
      call := None;
      var source := MountSource(req);
      if source.None? {
        trace := Proceed(s, h, handler, targets, entered, Reject(h));
        return Error(InvalidArgument), call, trace;
      }
      var mountOptions := MountOptions.Merge(req.readOnly, req.flags);
      trace := Proceed(s, h, handler, targets, entered, MakeDir(h, f.makeDirOk));
      if !f.makeDirOk {
        return Error(Internal), call, trace;
      }
      targets := targets[path := At(targets, path).(present := true)];
      var mounts;
      reply, mounts, trace := EnsureMounted(source.value, path, f, s, h, handler.(pc := Probing), trace);
      if mounts {
        call := Some(MountCall(source.value, mountOptions));
      }
    }

    /** The mount check, and the mount if it is needed. */
    method EnsureMounted(source: string, path: string, f: Faults, ghost s: State, ghost h: nat, ghost handler: Handler,
                         ghost probing: seq<Action>)
      returns (reply: Reply, mounts: bool, ghost trace: seq<Action>)
      requires handler.op == Operation.Publish && handler.pc == Probing
      requires handler.target == path && handler.source == source
      requires UnderWay(s, probing, h, handler, targets)
      modifies this`targets
      ensures UnderWay(s, trace, h, handler.(pc := Leaving(reply.Ok?)), targets)
      ensures targets == Ensured(old(targets), path, source, f)
      ensures var probe := ProbeOf(At(old(targets), path), f);
              && mounts == (if probe.StaleMount? then f.clearOk else !probe.Unreadable? && !probe.IsMounted?)
              && reply == if mounts then MountReply(f.mountError) else if probe.IsMounted? then Ok else Error(Internal)
    {
      var mounted, ok;
      mounted, ok, trace := ProbeToPublish(path, f, s, h, handler, probing);
      mounts := ok && !mounted;
      if !mounts {
        return if ok then Ok else Error(Internal), mounts, trace;
      }
      reply, trace := Mount(source, path, f, s, h, handler.(pc := Mounting), trace);
    }

    /** The mount command and its answer. */
    method Mount(source: string, path: string, f: Faults, ghost s: State, ghost h: nat, ghost handler: Handler,
                 ghost mounting: seq<Action>)
      returns (reply: Reply, ghost trace: seq<Action>)
      requires handler.pc == Mounting && handler.target == path && handler.source == source
      requires UnderWay(s, mounting, h, handler, targets)
      modifies this`targets
      ensures UnderWay(s, trace, h, handler.(pc := Leaving(reply.Ok?)), targets)
      ensures reply == MountReply(f.mountError)
      ensures targets == Mounted(old(targets), path, source, f)
    {
      trace := Proceed(s, h, handler, targets, mounting, DoMount(h, f.mountError.None?));
      if f.mountError.Some? {
        return MountReply(f.mountError), trace;
      }
      targets := targets[path := Target(true, At(targets, path).mounts + [Healthy(source)])];
      return Ok, trace;
    }

    /** The mount check as steps of the machine. */
    method ProbeToPublish(path: string, f: Faults, ghost s: State, ghost h: nat, ghost handler: Handler,
                          ghost probing: seq<Action>)
      returns (mounted: bool, ok: bool, ghost trace: seq<Action>)
      requires handler.op == Operation.Publish && handler.pc == Probing && handler.target == path
      requires UnderWay(s, probing, h, handler, targets)
      modifies this`targets
      ensures UnderWay(s, trace, h, handler.(pc := if !ok then Leaving(false) else if mounted then Leaving(true)
                                             else Mounting), targets)
      ensures var probe := ProbeOf(At(old(targets), path), f);
              && ok == (if probe.StaleMount? then f.clearOk else !probe.Unreadable?) &&
                   mounted == (ok && probe.IsMounted?)
              && targets == if probe.StaleMount? && f.clearOk then old(targets)[path := Pop(At(old(targets), path))]
                            else old(targets)
    {
      ghost var probe := ProbeOf(At(targets, path), f);
      ghost var before := targets;
      ProbeIsTruthful(At(targets, path), f);
      mounted, ok := IsMounted(path, f);
      trace := Proceed(s, h, handler, before, probing, Look(h, probe));
      if probe.StaleMount? {
        trace := Proceed(s, h, handler.(pc := Clearing), before, trace, Clear(h, f.clearOk));
      }
    }

    /** Unpublishes a volume, dropping the probe's error. The call is a run of the machine as well; success is reported
        from the position of an ordinary success or from the one of a probe that failed. */
    method NodeUnpublishVolume(volumeId: string, targetPath: string, f: Faults, ghost s: State, ghost h: nat)
      returns (reply: Reply, ghost trace: seq<Action>, ghost pc: Pc)
      requires Mirrors(s) && h !in s.handlers && h !in s.lock.running
      modifies inFlight, this`targets
      ensures inFlight.Keys() == old(inFlight.Keys())
      ensures var valid := volumeId != "" && targetPath != "";
              && (!valid ==> reply == Error(InvalidArgument) && targets == old(targets))
              && (valid && Key(volumeId, targetPath) in old(inFlight.Keys()) ==>
                    reply == Error(Aborted) && targets == old(targets))
              && (valid && Key(volumeId, targetPath) !in old(inFlight.Keys()) ==>
                    && reply == (if Unpublishes(f, At(old(targets), targetPath)) then Ok else Error(Internal))
                    && pc == (if reply.Ok? && BlindProbe(ProbeOf(At(old(targets), targetPath), f)) then LeavingBlind
                              else Leaving(reply.Ok?))
                    && IsCall(s, trace, h, Handler(Operation.Unpublish, volumeId, targetPath, "", pc), targets)
                    && targets == Unpublished(old(targets), targetPath, f))
      ensures var t := At(old(targets), targetPath);
              volumeId != "" && targetPath != "" && volumeId + targetPath !in old(inFlight.Keys()) ==>
                if (if f.readable then !t.present || t.mounts == [] || t.mounts[|t.mounts| - 1].Corrupted?
                    else f.saysNotMounted)
                then reply == Ok && targets == old(targets)
                else if !f.unmountOk || t.mounts == [] then reply == Error(Internal) && targets == old(targets)
                else
                  && targets == old(targets)[targetPath := Target(t.present && !f.removeOk, t.mounts[..|t.mounts| - 1])]
                  && reply == if f.removeOk then Ok else Error(Internal)
      ensures reply.Ok? && |At(old(targets), targetPath).mounts| <= 1
              && (At(old(targets), targetPath).present || At(old(targets), targetPath).mounts == []) ==>
        (At(targets, targetPath).mounts == [] <==>
           At(old(targets), targetPath).mounts == [] || !BlindProbe(ProbeOf(At(old(targets), targetPath), f)))
    {
      trace, pc := [], Leaving(false);
      if volumeId == "" || targetPath == "" {
        return Error(InvalidArgument), trace, pc;
      }
      var key := Key(volumeId, targetPath);
      var ok := inFlight.Insert(key);
      if !ok {
        return Error(Aborted), trace, pc;
      }
      trace := Begin(s, h, Operation.Unpublish, volumeId, targetPath, "");
      reply, trace, pc := UnpublishLocked(volumeId, targetPath, f, s, h, trace);
      trace := End(s, h, Handler(Operation.Unpublish, volumeId, targetPath, "", pc), targets, trace);
      inFlight.Delete(key);
    }

    method UnpublishLocked(volumeId: string, path: string, f: Faults, ghost s: State, ghost h: nat,
                           ghost entered: seq<Action>)
      returns (reply: Reply, ghost trace: seq<Action>, ghost pc: Pc)
      requires UnderWay(s, entered, h, Handler(Operation.Unpublish, volumeId, path, "", Probing), targets)
      modifies this`targets
      ensures UnderWay(s, trace, h, Handler(Operation.Unpublish, volumeId, path, "", pc), targets)
      ensures pc == if reply.Ok? && BlindProbe(ProbeOf(At(old(targets), path), f)) then LeavingBlind
        else Leaving(reply.Ok?)
      ensures reply == if Unpublishes(f, At(old(targets), path)) then Ok else Error(Internal)
      ensures targets == Unpublished(old(targets), path, f)
    {
      ghost var handler := Handler(Operation.Unpublish, volumeId, path, "", Probing);
      var probe := ProbeOf(At(targets, path), f);
      ProbeIsTruthful(At(targets, path), f);
      trace := Proceed(s, h, handler, targets, entered, Look(h, probe));
      pc := AfterUnpublishProbe(probe);
      var notMnt := SaysNotMounted(probe);
      if notMnt {
        return Ok, trace, pc;
      }
      ghost var before := targets;
      var ok := Unmount(path, f.unmountOk);
      trace := Proceed(s, h, handler.(pc := Unmounting), before, trace, DoUnmount(h, ok));
      if !ok {
        return Error(Internal), trace, Leaving(false);
      }
      trace := Proceed(s, h, handler.(pc := Removing), targets, trace, RemoveAll(h, f.removeOk));
      pc := Leaving(f.removeOk);
      if !f.removeOk {
        return Error(Internal), trace, pc;
      }
      targets := targets[path := At(targets, path).(present := false)];
      return Ok, trace, pc;
    }
  }

  /** The reply of a publish that got its key, from what the target was and what the mounter answered. */
  function PublishReply(req: PublishRequest, f: Faults, t: Target): Reply {
    if MountSource(req).None? then Error(InvalidArgument)
    else if !f.makeDirOk then Error(Internal)
    else match ProbeOf(t.(present := true), f)
      case Unreadable(_) => Error(Internal)
      case IsMounted => Ok
      case StaleMount => if f.clearOk then MountReply(f.mountError) else Error(Internal)
      case _ => MountReply(f.mountError)
  }

  function Mounted(targets: map<string, Target>, path: string, source: string, f: Faults): map<string, Target> {
    if f.mountError.Some? then targets
    else targets[path := Target(true, At(targets, path).mounts + [Healthy(source)])]
  }

  /** The targets after the mount check and the mount. */
  function Ensured(targets: map<string, Target>, path: string, source: string, f: Faults): map<string, Target> {
    match ProbeOf(At(targets, path), f)
    case Unreadable(_) => targets
    case IsMounted => targets
    case StaleMount => if f.clearOk then Mounted(targets[path := Pop(At(targets, path))], path, source, f) else targets
    case _ => Mounted(targets, path, source, f)
  }

  /** The targets after a publish that got its key. */
  function Published(targets: map<string, Target>, req: PublishRequest, f: Faults): map<string, Target> {
    var path := req.targetPath;
    if MountSource(req).None? || !f.makeDirOk then targets
    else Ensured(targets[path := At(targets, path).(present := true)], path, SourceOf(req), f)
  }

  /** What is mounted, and for which contexts nothing is. */
  lemma SourceMeans(req: PublishRequest)
    ensures MountSource(req).None? <==>
      || req.dnsName == ""
      || (req.resourceType != "filesystem" && req.resourceType != "volume")
      || (req.resourceType == "volume" && req.volumePath == "")
      || (req.resourceType == "filesystem" && req.volumePath != "" && req.volumePath != "fsx")
    ensures MountSource(req).Some? ==>
      MountSource(req).value
      == if req.resourceType == "filesystem" then req.dnsName + ":fsx" else req.dnsName + ":" + req.volumePath
  {
    assert req.dnsName + ":" + "fsx" == req.dnsName + ":fsx";
  }

  lemma OptionsMean(req: PublishRequest)
    ensures forall x ::
      x in OptionsOf(req) <==> (req.readOnly && x == "ro") || (req.flags.Some? && x in req.flags.value)
  {
    MountOptions.DedupKeepsFirstOccurrences(
      MountOptions.Wanted(req.readOnly, if req.flags.Some? then req.flags.value else []));
  }

  /** The reply and the targets, by what the target was and what the mounter answers. */
  lemma PublishMeans(req: PublishRequest, f: Faults, targets: map<string, Target>)
    ensures var path, t := req.targetPath, At(targets, req.targetPath);
            var after, reply := Published(targets, req, f), PublishReply(req, f, t);
            var left := if t.mounts == [] then [] else t.mounts[..|t.mounts| - 1];
            if MountSource(req).None? then reply == Error(InvalidArgument) && !Mounts(req, f, t) && after == targets
            else if !f.makeDirOk then reply == Error(Internal) && !Mounts(req, f, t) && after == targets
            else if !f.readable || (t.mounts != [] && (t.mounts[|t.mounts| - 1].Healthy? || !f.clearOk))
            then after == targets[path := Target(true, t.mounts)] && !Mounts(req, f, t)
                 && reply == if f.readable && t.mounts[|t.mounts| - 1].Healthy? then Ok else Error(Internal)
            else
              && Mounts(req, f, t) && reply == MountReply(f.mountError)
              && after == targets[path :=
                   Target(true, left + if f.mountError.None? then [Healthy(SourceOf(req))] else [])]
  {
    var path, t := req.targetPath, At(targets, req.targetPath);
    var made := targets[path := Target(true, t.mounts)];
    var left := if t.mounts == [] then [] else t.mounts[..|t.mounts| - 1];
    var last := Target(true, left + if f.mountError.None? then [Healthy(SourceOf(req))] else []);
    assert made[path := last] == targets[path := last];
    assert f.mountError.Some? ==> last == Target(true, left);
    if t.mounts != [] {
      var popped := made[path := Target(true, left)];
      assert popped == targets[path := Target(true, left)] && popped[path := last] == targets[path := last];
    }
  }

  function MountReply(error: Option<MountError>): Reply {
    match error
    case None => Ok
    case Some(Permission) => Error(PermissionDenied)
    case Some(InvalidOption) => Error(InvalidArgument)
    case Some(OtherError) => Error(Internal)
  }

  /** Whether the publish gets as far as the mount command. */
  predicate Mounts(req: PublishRequest, f: Faults, t: Target) {
    && MountSource(req).Some? && f.makeDirOk
    && match ProbeOf(t.(present := true), f)
       case Unreadable(_) => false
       case IsMounted => false
       case StaleMount => f.clearOk
       case _ => true
  }

  /** The probe's first result when its error is ignored. */
  predicate SaysNotMounted(probe: Probe) {
    match probe
    case IsMounted => false
    case Unreadable(says) => says
    case _ => true
  }

  /** Whether an unpublish that got its key succeeds. */
  predicate Unpublishes(f: Faults, t: Target) {
    SaysNotMounted(ProbeOf(t, f)) || (f.unmountOk && t.mounts != [] && f.removeOk)
  }

  /** The targets after an unpublish that got its key. */
  function Unpublished(targets: map<string, Target>, path: string, f: Faults): map<string, Target> {
    var t := At(targets, path);
    if SaysNotMounted(ProbeOf(t, f)) || !f.unmountOk || t.mounts == [] then targets
    else targets[path := Pop(t).(present := t.present && !f.removeOk)]
  }

  function OptionsOf(req: PublishRequest): seq<string> {
    MountOptions.Dedup(MountOptions.Wanted(req.readOnly, if req.flags.Some? then req.flags.value else []))
  }
}
