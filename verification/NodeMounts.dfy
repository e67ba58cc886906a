/** Publishing and unpublishing volumes on a node: every interleaving of the handlers' steps, over the node's mounts. */
module NodeMounts {
  import opened Parameters
  import InFlight

  /** A mount of some source, whose server answers or does not. */
  datatype Mount = Healthy(source: string) | Corrupted(source: string)

  /** A target path: whether it exists, and what is mounted on it, newest last. */
  datatype Target = Target(present: bool, mounts: seq<Mount>)

  const NOWHERE := Target(false, [])

  datatype Operation = Publish | Unpublish

  /** Where a handler stands. It leaves by deleting its key; `LeavingBlind` is success on a probe that failed. */
  datatype Pc = Entered | Probing | Clearing | Mounting | Unmounting | Removing | Leaving(ok: bool) | LeavingBlind

  datatype Handler = Handler(op: Operation, volume: string, target: string, source: string, pc: Pc)

  datatype State = State(lock: InFlight.State, handlers: map<nat, Handler>, targets: map<string, Target>)

  const EMPTY := State(InFlight.IDLE, map[], map[])

  /** What the mount probe reports. Only a readable target is reported on truthfully. */
  datatype Probe = NotMounted | IsMounted | NotExisting | StaleMount | Unreadable(saysNotMounted: bool)

  datatype Action =
    | Enter(h: nat, op: Operation, volume: string, target: string, source: string)
    | Reject(h: nat)
    | MakeDir(h: nat, ok: bool)
    | Look(h: nat, probe: Probe)
    | Clear(h: nat, ok: bool)
    | DoMount(h: nat, ok: bool)
    | DoUnmount(h: nat, ok: bool)
    | RemoveAll(h: nat, ok: bool)
    | Return(h: nat)
    | ServerChange(path: string, healthy: bool)

  /** Volume and target path together make the key. */
  function Key(volume: string, target: string): string {
    volume + target
  }

  function At(targets: map<string, Target>, path: string): Target {
    if path in targets then targets[path] else NOWHERE
  }

  function Top(t: Target): Option<Mount> {
    if t.mounts == [] then None else Some(t.mounts[|t.mounts| - 1])
  }

  function Pop(t: Target): Target
    requires t.mounts != []
  {
    t.(mounts := t.mounts[..|t.mounts| - 1])
  }

  /** A readable target is reported as it is; a stale mount is recognised only where there is one. */
  predicate Truthful(t: Target, probe: Probe) {
    match probe
    case NotMounted => t.mounts == []
    case IsMounted => Top(t).Some? && Top(t).value.Healthy?
    case NotExisting => !t.present
    case StaleMount => Top(t).Some? && Top(t).value.Corrupted?
    case Unreadable(_) => true
  }

  /** A probe that says "not mounted" only because it failed. */
  predicate BlindProbe(probe: Probe) {
    probe.StaleMount? || probe == Unreadable(true)
  }

  /** What a publishing handler does next, after each answer of the probe. */
  function AfterPublishProbe(probe: Probe): Pc {
    match probe
    case NotMounted => Mounting
    case NotExisting => Mounting
    case IsMounted => Leaving(true)
    case StaleMount => Clearing
    case Unreadable(_) => Leaving(false)
  }

  /** An unpublishing handler drops the probe's error and goes by its other result. */
  function AfterUnpublishProbe(probe: Probe): Pc {
    match probe
    case NotMounted => Leaving(true)
    case NotExisting => Leaving(true)
    case IsMounted => Unmounting
    case StaleMount => LeavingBlind
    case Unreadable(says) => if says then LeavingBlind else Unmounting
  }

  /** Whether the action can happen at all in this state. */
  predicate Enabled(s: State, a: Action) {
    match a
    case Enter(h, _, _, _, _) => h !in s.handlers
    case Reject(h) => h in s.handlers && s.handlers[h].pc.Entered?
    case MakeDir(h, _) => h in s.handlers && s.handlers[h].pc.Entered?
    case Look(h, probe) => h in s.handlers && s.handlers[h].pc.Probing? &&
      Truthful(At(s.targets, s.handlers[h].target), probe)
    case Clear(h, ok) => h in s.handlers && s.handlers[h].pc.Clearing? &&
      (ok ==> At(s.targets, s.handlers[h].target).mounts != [])
    case DoMount(h, ok) => h in s.handlers && s.handlers[h].pc.Mounting?
    case DoUnmount(h, ok) => h in s.handlers && s.handlers[h].pc.Unmounting? &&
      (ok ==> At(s.targets, s.handlers[h].target).mounts != [])
    case RemoveAll(h, _) => h in s.handlers && s.handlers[h].pc.Removing?
    case Return(h) => h in s.handlers && (s.handlers[h].pc.Leaving? || s.handlers[h].pc.LeavingBlind?)
    case ServerChange(path, _) => At(s.targets, path).mounts != []
  }

  function Goto(s: State, h: nat, pc: Pc): State
    requires h in s.handlers
  {
    s.(handlers := s.handlers[h := s.handlers[h].(pc := pc)])
  }

  function Put(s: State, path: string, t: Target): State {
    s.(targets := s.targets[path := t])
  }

  function Step(s: State, a: Action): State {
    if !Enabled(s, a) then s
    else match a
      case Enter(h, op, volume, target, source) =>
        var lock := InFlight.Step(s.lock, InFlight.Enter(h, Key(volume, target)));
        if InFlight.Refused(s.lock, InFlight.Enter(h, Key(volume, target))) then s
        else State(lock, s.handlers[h := Handler(op, volume, target, source, if op.Publish? then Entered else Probing)],
                   s.targets)
      case Reject(h) => Goto(s, h, Leaving(false))
      case MakeDir(h, ok) =>
        var path := s.handlers[h].target;
        if ok then Goto(Put(s, path, At(s.targets, path).(present := true)), h, Probing) else Goto(s, h, Leaving(false))
      case Look(h, probe) =>
        Goto(s, h, if s.handlers[h].op.Publish? then AfterPublishProbe(probe) else AfterUnpublishProbe(probe))
      case Clear(h, ok) =>
        var path := s.handlers[h].target;
        if ok then Goto(Put(s, path, Pop(At(s.targets, path))), h, Mounting) else Goto(s, h, Leaving(false))
      case DoMount(h, ok) =>
        var path := s.handlers[h].target;
        var t := At(s.targets, path);
        if ok then Goto(Put(s, path, Target(true, t.mounts + [Healthy(s.handlers[h].source)])), h, Leaving(true))
        else Goto(s, h, Leaving(false))
      case DoUnmount(h, ok) =>
        var path := s.handlers[h].target;
        if ok then Goto(Put(s, path, Pop(At(s.targets, path))), h, Removing) else Goto(s, h, Leaving(false))
      case RemoveAll(h, ok) =>
        var path := s.handlers[h].target;
        if ok then Goto(Put(s, path, At(s.targets, path).(present := false)), h, Leaving(true))
        else Goto(s, h, Leaving(false))
      case Return(h) =>
        State(InFlight.Step(s.lock, InFlight.Return(h)), s.handlers - {h}, s.targets)
      case ServerChange(path, healthy) =>
        var t := At(s.targets, path);
        var source := Top(t).value.source;
        Put(s, path, t.(mounts := Pop(t).mounts + [if healthy then Healthy(source) else Corrupted(source)]))
  }

  function Run(s: State, actions: seq<Action>): State {
    if actions == [] then s else Step(Run(s, actions[..|actions| - 1]), actions[|actions| - 1])
  }

  // ---------- What every reachable state satisfies ----------

  /** Each target path is used by one volume only. */
  predicate OneVolumePerTarget(actions: seq<Action>, owner: string -> string) {
    forall i | 0 <= i < |actions| && actions[i].Enter? :: actions[i].volume == owner(actions[i].target)
  }

  /** The lock table is exact and belongs to the handlers that are running. */
  ghost predicate Locked(s: State) {
    && InFlight.Exact(s.lock)
    && s.lock.running.Keys == s.handlers.Keys
    && forall h | h in s.handlers :: s.lock.running[h] == Key(s.handlers[h].volume, s.handlers[h].target)
  }

  /** What a handler that stands at `pc` may rely on about its target. */
  predicate Assured(h: Handler, t: Target) {
    match h.pc
    case Entered => h.op.Publish?
    case Probing => true
    case Clearing => h.op.Publish? && |t.mounts| == 1
    case Mounting => h.op.Publish? && t.mounts == []
    case Unmounting => h.op.Unpublish?
    case Removing => h.op.Unpublish? && t.mounts == []
    case Leaving(ok) => ok ==> |t.mounts| == if h.op.Publish? then 1 else 0
    case LeavingBlind => h.op.Unpublish?
  }

  ghost predicate Safe(s: State, owner: string -> string) {
    && Locked(s)
    && (forall h | h in s.handlers :: s.handlers[h].volume == owner(s.handlers[h].target))
    && (forall path | path in s.targets :: |s.targets[path].mounts| <= 1)
    && (forall path | path in s.targets && !s.targets[path].present :: s.targets[path].mounts == [])
    && (forall h | h in s.handlers :: Assured(s.handlers[h], At(s.targets, s.handlers[h].target)))
  }

  /** One volume per target makes the key a lock on the target. */
  lemma Exclusive(s: State, owner: string -> string, a: nat, b: nat)
    requires Safe(s, owner) && a in s.handlers && b in s.handlers
    requires s.handlers[a].target == s.handlers[b].target
    ensures a == b
  {
    assert s.lock.running[a] == s.lock.running[b];
  }

  /** A step of one handler, seen from the others: they hold other targets. */
  lemma HandlerStepKeepsSafe(s: State, owner: string -> string, h: nat, pc: Pc, t: Target)
    requires Safe(s, owner) && h in s.handlers
    requires |t.mounts| <= 1 && (!t.present ==> t.mounts == [])
    requires Assured(s.handlers[h].(pc := pc), t)
    ensures Safe(Goto(Put(s, s.handlers[h].target, t), h, pc), owner)
  {
    var after := Goto(Put(s, s.handlers[h].target, t), h, pc);
    forall g | g in after.handlers ensures Assured(after.handlers[g], At(after.targets, after.handlers[g].target)) {
      if g != h && s.handlers[g].target == s.handlers[h].target {
        Exclusive(s, owner, g, h);
      }
    }
  }

  lemma PcStepKeepsSafe(s: State, owner: string -> string, h: nat, pc: Pc)
    requires Safe(s, owner) && h in s.handlers
    requires Assured(s.handlers[h].(pc := pc), At(s.targets, s.handlers[h].target))
    ensures Safe(Goto(s, h, pc), owner)
  {
  }

  lemma EnterKeepsSafe(s: State, owner: string -> string, a: Action)
    requires Safe(s, owner) && a.Enter? && a.volume == owner(a.target)
    ensures Safe(Step(s, a), owner)
  {
    InFlight.StepKeepsExact(s.lock, InFlight.Enter(a.h, Key(a.volume, a.target)));
  }

  lemma ReturnKeepsSafe(s: State, owner: string -> string, a: Action)
    requires Safe(s, owner) && a.Return?
    ensures Safe(Step(s, a), owner)
  {
    InFlight.StepKeepsExact(s.lock, InFlight.Return(a.h));
  }

  lemma ServerChangeKeepsSafe(s: State, owner: string -> string, a: Action)
    requires Safe(s, owner) && a.ServerChange?
    ensures Safe(Step(s, a), owner)
  {
  }

  lemma MountStepKeepsSafe(s: State, owner: string -> string, a: Action)
    requires Safe(s, owner) && Enabled(s, a)
    requires a.Clear? || a.DoMount? || a.DoUnmount? || a.RemoveAll?
    ensures Safe(Step(s, a), owner)
  {
    match a {
      case Clear(h, ok) =>
        if ok {
          HandlerStepKeepsSafe(s, owner, h, Mounting, Pop(At(s.targets, s.handlers[h].target)));
        } else {
          PcStepKeepsSafe(s, owner, h, Leaving(false));
        }
      case DoMount(h, ok) =>
        if ok {
          var t := At(s.targets, s.handlers[h].target);
          HandlerStepKeepsSafe(s, owner, h, Leaving(true), Target(true, t.mounts + [Healthy(s.handlers[h].source)]));
        } else {
          PcStepKeepsSafe(s, owner, h, Leaving(false));
        }
      case DoUnmount(h, ok) =>
        if ok {
          HandlerStepKeepsSafe(s, owner, h, Removing, Pop(At(s.targets, s.handlers[h].target)));
        } else {
          PcStepKeepsSafe(s, owner, h, Leaving(false));
        }
      case RemoveAll(h, ok) =>
        if ok {
          HandlerStepKeepsSafe(s, owner, h, Leaving(true), At(s.targets, s.handlers[h].target).(present := false));
        } else {
          PcStepKeepsSafe(s, owner, h, Leaving(false));
        }
    }
  }

  lemma StepKeepsSafe(s: State, owner: string -> string, a: Action)
    requires Safe(s, owner)
    requires a.Enter? ==> a.volume == owner(a.target)
    ensures Safe(Step(s, a), owner)
  {
    if Enabled(s, a) {
      match a
      case Enter(_, _, _, _, _) => EnterKeepsSafe(s, owner, a);
      case Reject(h) => PcStepKeepsSafe(s, owner, h, Leaving(false));
      case MakeDir(h, ok) =>
        if ok {
          HandlerStepKeepsSafe(s, owner, h, Probing, At(s.targets, s.handlers[h].target).(present := true));
        } else {
          PcStepKeepsSafe(s, owner, h, Leaving(false));
        }
      case Look(h, probe) =>
        PcStepKeepsSafe(s, owner, h, if s.handlers[h].op.Publish? then AfterPublishProbe(probe)
                        else AfterUnpublishProbe(probe));
      case Return(_) => ReturnKeepsSafe(s, owner, a);
      case ServerChange(_, _) => ServerChangeKeepsSafe(s, owner, a);
      case _ => MountStepKeepsSafe(s, owner, a);
    }
  }

  lemma {:induction false} RunKeepsSafe(s: State, actions: seq<Action>, owner: string -> string)
    requires Safe(s, owner) && OneVolumePerTarget(actions, owner)
    ensures Safe(Run(s, actions), owner)
  {
    if actions != [] {
      var n := |actions| - 1;
      RunKeepsSafe(s, actions[..n], owner);
      StepKeepsSafe(Run(s, actions[..n]), owner, actions[n]);
    }
  }

  /** If each target belongs to one volume then, however the handlers interleave and whatever the servers do: no target
      ever has two mounts; a publish that is about to report success has exactly one on its target, a recovered stale
      one included; an unpublish that saw its target has none; and no directory is removed with a mount on it. */
  lemma MountSafety(actions: seq<Action>, owner: string -> string)
    requires OneVolumePerTarget(actions, owner)
    ensures var s := Run(EMPTY, actions);
            && (forall path | path in s.targets :: |s.targets[path].mounts| <= 1)
            && (forall h | h in s.handlers && s.handlers[h].pc == Leaving(true) ::
                  |At(s.targets, s.handlers[h].target).mounts| == if s.handlers[h].op.Publish? then 1 else 0)
            && (forall h | h in s.handlers && s.handlers[h].pc.Removing? ::
                At(s.targets, s.handlers[h].target).mounts == [])
            && (forall a, b | a in s.handlers && b in s.handlers && s.handlers[a].target == s.handlers[b].target ::
                a == b)
  {
    RunKeepsSafe(EMPTY, actions, owner);
    var s := Run(EMPTY, actions);
    forall a, b | a in s.handlers && b in s.handlers && s.handlers[a].target == s.handlers[b].target ensures a == b {
      Exclusive(s, owner, a, b);
    }
  }

  // ---------- Whose mount it is ----------

  /** A volume is always published from the same source. */
  predicate OneSourcePerVolume(actions: seq<Action>, source: string -> string) {
    forall i | 0 <= i < |actions| && actions[i].Enter? && actions[i].op.Publish? ::
      actions[i].source == source(actions[i].volume)
  }

  /** Every publishing handler has its volume's source, and every mount is of the source of its target's volume. */
  ghost predicate Sourced(s: State, owner: string -> string, source: string -> string) {
    && (forall h | h in s.handlers && s.handlers[h].op.Publish? :: s.handlers[h].source == source(s.handlers[h].volume))
    && (forall path | path in s.targets :: MountsOf(s.targets[path], source(owner(path))))
  }

  predicate MountsOf(t: Target, source: string) {
    forall i | 0 <= i < |t.mounts| :: t.mounts[i].source == source
  }

  lemma StepKeepsSourced(s: State, owner: string -> string, source: string -> string, a: Action)
    requires Safe(s, owner) && Sourced(s, owner, source)
    requires a.Enter? && a.op.Publish? ==> a.source == source(a.volume)
    ensures Sourced(Step(s, a), owner, source)
  {
    if Enabled(s, a) {
      if a.ServerChange? {
        assert Top(At(s.targets, a.path)).value.source == source(owner(a.path));
      } else if a.MakeDir? || a.Clear? || a.DoMount? || a.DoUnmount? || a.RemoveAll? {
        if a.ok {
          TargetStepKeepsSourced(s, owner, source, a);
        } else {
          PcStepKeepsSourced(s, owner, source, a.h, Leaving(false));
        }
      } else if a.Look? {
        var probe := a.probe;
        PcStepKeepsSourced(s, owner, source, a.h,
                           if s.handlers[a.h].op.Publish? then AfterPublishProbe(probe)
                           else AfterUnpublishProbe(probe));
      }
    }
  }

  lemma PcStepKeepsSourced(s: State, owner: string -> string, source: string -> string, h: nat, pc: Pc)
    requires Sourced(s, owner, source) && h in s.handlers
    ensures Sourced(Goto(s, h, pc), owner, source)
  {
  }

  /** A step of one handler that leaves its target as `t`. */
  lemma PutKeepsSourced(s: State, owner: string -> string, source: string -> string, h: nat, pc: Pc, t: Target)
    requires Sourced(s, owner, source) && h in s.handlers && MountsOf(t, source(owner(s.handlers[h].target)))
    ensures Sourced(Goto(Put(s, s.handlers[h].target, t), h, pc), owner, source)
  {
  }

  lemma TargetStepKeepsSourced(s: State, owner: string -> string, source: string -> string, a: Action)
    requires Safe(s, owner) && Sourced(s, owner, source) && Enabled(s, a)
    requires a.MakeDir? || a.Clear? || a.DoMount? || a.DoUnmount? || a.RemoveAll?
    requires a.ok
    ensures Sourced(Step(s, a), owner, source)
  {
    var h := s.handlers[a.h];
    var t := At(s.targets, h.target);
    assert MountsOf(t, source(owner(h.target)));
    match a
    case MakeDir(g, _) => PutKeepsSourced(s, owner, source, g, Probing, t.(present := true));
    case Clear(g, _) => PutKeepsSourced(s, owner, source, g, Mounting, Pop(t));
    case DoMount(g, _) =>
      assert Assured(h, t);
      PutKeepsSourced(s, owner, source, g, Leaving(true), Target(true, t.mounts + [Healthy(h.source)]));
    case DoUnmount(g, _) => PutKeepsSourced(s, owner, source, g, Removing, Pop(t));
    case RemoveAll(g, _) => PutKeepsSourced(s, owner, source, g, Leaving(true), t.(present := false));
  }

  lemma {:induction false} RunKeepsSourced(actions: seq<Action>, owner: string -> string, source: string -> string)
    requires OneVolumePerTarget(actions, owner) && OneSourcePerVolume(actions, source)
    ensures Sourced(Run(EMPTY, actions), owner, source)
  {
    if actions != [] {
      var n := |actions| - 1;
      RunKeepsSourced(actions[..n], owner, source);
      RunKeepsSafe(EMPTY, actions[..n], owner);
      StepKeepsSourced(Run(EMPTY, actions[..n]), owner, source, actions[n]);
    }
  }

  /** With one volume per target and one source per volume, whatever is mounted on a target is its volume's; so a
      publish that is about to report success, though it never looks at the source of a mount it finds, has the very
      source it was asked for on its target, and nothing else. */
  lemma MountsAreOwn(actions: seq<Action>, owner: string -> string, source: string -> string)
    requires OneVolumePerTarget(actions, owner) && OneSourcePerVolume(actions, source)
    ensures var s := Run(EMPTY, actions);
            && (forall path, m | path in s.targets && m in s.targets[path].mounts :: m.source == source(owner(path)))
            && (forall h | h in s.handlers && s.handlers[h].op.Publish? && s.handlers[h].pc == Leaving(true) ::
                  var mounts := At(s.targets, s.handlers[h].target).mounts;
                  |mounts| == 1 && mounts[0].source == s.handlers[h].source)
  {
    RunKeepsSafe(EMPTY, actions, owner);
    RunKeepsSourced(actions, owner, source);
    var s := Run(EMPTY, actions);
    forall path, m | path in s.targets && m in s.targets[path].mounts ensures m.source == source(owner(path)) {
      assert MountsOf(s.targets[path], source(owner(path)));
    }
    forall h | h in s.handlers && s.handlers[h].op.Publish? && s.handlers[h].pc == Leaving(true)
      ensures var mounts := At(s.targets, s.handlers[h].target).mounts;
              |mounts| == 1 && mounts[0].source == s.handlers[h].source
    {
      assert Assured(s.handlers[h], At(s.targets, s.handlers[h].target));
      assert MountsOf(At(s.targets, s.handlers[h].target), source(owner(s.handlers[h].target)));
    }
  }

  // ---------- Who blocks whom ----------

  /** A volume identifier without a slash followed by a path that starts with one can be taken apart again. */
  lemma KeyIsFaithful(v1: string, t1: string, v2: string, t2: string)
    requires '/' !in v1 && '/' !in v2
    requires t1 != "" && t1[0] == '/' && t2 != "" && t2[0] == '/'
    ensures Key(v1, t1) == Key(v2, t2) <==> v1 == v2 && t1 == t2
  {
    if Key(v1, t1) == Key(v2, t2) {
      var k := Key(v1, t1);
      assert k[|v1|] == '/' && k[|v2|] == '/';
      assert forall i | 0 <= i < |v1| :: k[i] == v1[i] && v1[i] in v1;
      assert forall i | 0 <= i < |v2| :: k[i] == v2[i] && v2[i] in v2;
      assert v1 == k[..|v1|] && v2 == k[..|v2|];
      assert t1 == k[|v1|..] && t2 == k[|v2|..];
    }
  }

  predicate WellNamed(volume: string, target: string) {
    '/' !in volume && target != "" && target[0] == '/'
  }

  lemma {:induction false} ReachableIsLocked(actions: seq<Action>)
    ensures Locked(Run(EMPTY, actions))
  {
    if actions != [] {
      var n := |actions| - 1;
      ReachableIsLocked(actions[..n]);
      StepKeepsLocked(Run(EMPTY, actions[..n]), actions[n]);
    }
  }

  lemma StepKeepsLocked(s: State, a: Action)
    requires Locked(s)
    ensures Locked(Step(s, a))
  {
    if a.Enter? {
      InFlight.StepKeepsExact(s.lock, InFlight.Enter(a.h, Key(a.volume, a.target)));
    } else if a.Return? {
      InFlight.StepKeepsExact(s.lock, InFlight.Return(a.h));
    } else {
      LockStays(s, a);
      NamesStay(s, a);
    }
  }

  lemma LockStays(s: State, a: Action)
    requires !a.Enter? && !a.Return?
    ensures Step(s, a).lock == s.lock && Step(s, a).handlers.Keys == s.handlers.Keys
  {
  }

  /** With identifiers and paths of the usual form, a handler is turned away exactly when another one is at work on
      the same volume and the same target. */
  lemma BlockedBySameWorkOnly(actions: seq<Action>, a: Action)
    requires forall i | 0 <= i < |actions| && actions[i].Enter? :: WellNamed(actions[i].volume, actions[i].target)
    requires a.Enter? && WellNamed(a.volume, a.target)
    ensures var s := Run(EMPTY, actions);
            InFlight.Refused(s.lock, InFlight.Enter(a.h, Key(a.volume, a.target))) <==>
              exists h :: h in s.handlers && s.handlers[h].volume == a.volume && s.handlers[h].target == a.target
  {
    var s := Run(EMPTY, actions);
    ReachableIsLocked(actions);
    HandlersAreWellNamed(actions);
    forall h | h in s.handlers
      ensures s.lock.running[h] == Key(a.volume, a.target)
        <==> s.handlers[h].volume == a.volume && s.handlers[h].target == a.target
    {
      assert NamedHandler(s.handlers[h]);
      KeyIsFaithful(s.handlers[h].volume, s.handlers[h].target, a.volume, a.target);
    }
    if h :| h in s.handlers && s.handlers[h].volume == a.volume && s.handlers[h].target == a.target {
      assert s.lock.running[h] in s.lock.running.Values;
    }
    if Key(a.volume, a.target) in s.lock.table {
      var h :| h in s.lock.running && s.lock.running[h] == Key(a.volume, a.target);
    }
  }

  lemma {:induction false} HandlersAreWellNamed(actions: seq<Action>)
    requires forall i | 0 <= i < |actions| && actions[i].Enter? :: WellNamed(actions[i].volume, actions[i].target)
    ensures forall h | h in Run(EMPTY, actions).handlers :: NamedHandler(Run(EMPTY, actions).handlers[h])
  {
    if actions != [] {
      var n := |actions| - 1;
      assert forall i | 0 <= i < n :: actions[..n][i] == actions[i];
      HandlersAreWellNamed(actions[..n]);
      var s := Run(EMPTY, actions[..n]);
      var a := actions[n];
      NamesStay(s, a);
      forall h | h in Step(s, a).handlers ensures NamedHandler(Step(s, a).handlers[h]) {
        if h in s.handlers {
          assert NamedHandler(s.handlers[h]);
        }
      }
    }
  }

  predicate NamedHandler(h: Handler) {
    WellNamed(h.volume, h.target)
  }

  lemma NamesStay(s: State, a: Action)
    ensures forall h | h in Step(s, a).handlers ::
      if h in s.handlers then Step(s, a).handlers[h].volume == s.handlers[h].volume &&
        Step(s, a).handlers[h].target == s.handlers[h].target
      else a.Enter? && Step(s, a).handlers[h].volume == a.volume && Step(s, a).handlers[h].target == a.target
  {
  }

  // ---------- What cannot be claimed ----------

  lemma RunStep(s: State, actions: seq<Action>, a: Action)
    ensures Run(s, actions + [a]) == Step(Run(s, actions), a)
  {
    assert (actions + [a])[..|actions|] == actions;
  }

  /** Two publishing handlers side by side. */
  function Pair(v1: string, v2: string, path: string, pc1: Pc, pc2: Pc, targets: map<string, Target>): State {
    State(InFlight.State({Key(v1, path), Key(v2, path)}, map[0 := Key(v1, path), 1 := Key(v2, path)]),
          map[0 := Handler(Publish, v1, path, "", pc1), 1 := Handler(Publish, v2, path, "", pc2)], targets)
  }

  lemma KeysOfOneTarget(v1: string, v2: string, path: string)
    ensures Key(v1, path) == Key(v2, path) ==> v1 == v2
  {
    if Key(v1, path) == Key(v2, path) {
      assert Key(v1, path)[..|v1|] == v1 && Key(v2, path)[..|v2|] == v2;
    }
  }

  lemma BothEnter(v1: string, v2: string, path: string) returns (run: seq<Action>)
    requires v1 != v2
    ensures run == [Enter(0, Publish, v1, path, ""), Enter(1, Publish, v2, path, "")]
    ensures Run(EMPTY, run) == Pair(v1, v2, path, Entered, Entered, map[])
  {
    KeysOfOneTarget(v1, v2, path);
    run := [];
    run := Extend(run, Enter(0, Publish, v1, path, ""));
    run := Extend(run, Enter(1, Publish, v2, path, ""));
    var s := Run(EMPTY, run);
    assert s.handlers == Pair(v1, v2, path, Entered, Entered, map[]).handlers;
    assert s.lock.running == Pair(v1, v2, path, Entered, Entered, map[]).lock.running;
  }

  lemma BothLook(v1: string, v2: string, path: string, enter: seq<Action>) returns (run: seq<Action>)
    requires Run(EMPTY, enter) == Pair(v1, v2, path, Entered, Entered, map[])
    ensures run == enter + [MakeDir(0, true), MakeDir(1, true), Look(0, NotMounted), Look(1, NotMounted)]
    ensures Run(EMPTY, run) == Pair(v1, v2, path, Mounting, Mounting, map[path := Target(true, [])])
  {
    var made := map[path := Target(true, [])];
    run := Extend(enter, MakeDir(0, true));
    PairMoves(v1, v2, path, Entered, Entered, made);
    run := Extend(run, MakeDir(1, true));
    PairMoves(v1, v2, path, Probing, Entered, made);
    assert made[path := made[path].(present := true)] == made;
    run := Extend(run, Look(0, NotMounted));
    PairMoves(v1, v2, path, Probing, Probing, made);
    run := Extend(run, Look(1, NotMounted));
    PairMoves(v1, v2, path, Mounting, Probing, made);
  }

  lemma PairMoves(v1: string, v2: string, path: string, pc1: Pc, pc2: Pc, targets: map<string, Target>)
    ensures forall pc :: Goto(Pair(v1, v2, path, pc1, pc2, targets), 0, pc) == Pair(v1, v2, path, pc, pc2, targets)
    ensures forall pc :: Goto(Pair(v1, v2, path, pc1, pc2, targets), 1, pc) == Pair(v1, v2, path, pc1, pc, targets)
  {
  }

  lemma BothMount(v1: string, v2: string, path: string, look: seq<Action>) returns (run: seq<Action>)
    requires Run(EMPTY, look) == Pair(v1, v2, path, Mounting, Mounting, map[path := Target(true, [])])
    ensures run == look + [DoMount(0, true), DoMount(1, true)]
    ensures |At(Run(EMPTY, run).targets, path).mounts| == 2
  {
    run := Extend(look, DoMount(0, true));
    run := Extend(run, DoMount(1, true));
  }

  /** As soon as two volumes use one target, their keys differ and both can end up mounted there. */
  lemma TwoVolumesOneTarget(v1: string, v2: string, path: string) returns (run: seq<Action>)
    requires v1 != v2
    ensures |At(Run(EMPTY, run).targets, path).mounts| == 2
    ensures forall i | 0 <= i < |run| && run[i].Enter? :: run[i].target == path && run[i].volume in {v1, v2}
  {
    run := BothEnter(v1, v2, path);
    run := BothLook(v1, v2, path, run);
    run := BothMount(v1, v2, path, run);
  }

  lemma Extend(run: seq<Action>, a: Action) returns (longer: seq<Action>)
    ensures longer == run + [a] && Run(EMPTY, longer) == Step(Run(EMPTY, run), a)
  {
    longer := run + [a];
    RunStep(EMPTY, run, a);
  }

  /** The volume that uses a target, if one does. */
  ghost function OwnerIn(uses: iset<(string, string)>, path: string): string {
    if exists volume :: (volume, path) in uses then var volume :| (volume, path) in uses; volume else ""
  }

  /** Every handler of the run works on one of the given pairs of volume and target. */
  predicate Within(actions: seq<Action>, uses: iset<(string, string)>) {
    forall i | 0 <= i < |actions| && actions[i].Enter? :: (actions[i].volume, actions[i].target) in uses
  }

  /** Which volumes go to which targets decides whether a second mount can come about: no run has one exactly if no
      target is used by two volumes. */
  lemma OneMountPerTarget(uses: iset<(string, string)>)
    ensures (forall actions, path | Within(actions, uses) :: |At(Run(EMPTY, actions).targets, path).mounts| <= 1)
      <==> forall v1, v2, path | (v1, path) in uses && (v2, path) in uses :: v1 == v2
  {
    if v1, v2, path :| (v1, path) in uses && (v2, path) in uses && v1 != v2 {
      var run := TwoVolumesOneTarget(v1, v2, path);
      assert Within(run, uses);
    } else {
      var owner := path => OwnerIn(uses, path);
      forall actions, path | Within(actions, uses) ensures |At(Run(EMPTY, actions).targets, path).mounts| <= 1 {
        assert OneVolumePerTarget(actions, owner);
        MountSafety(actions, owner);
      }
    }
  }

  // ---------- What a successful unpublish means ----------

  /** Where an unpublishing handler can stand after it has looked at its target and found `was` mounts there. */
  ghost predicate HasLooked(s: State, h: nat, path: string, probe: Probe, was: nat) {
    && h in s.handlers && s.handlers[h].op.Unpublish? && s.handlers[h].target == path
    && match s.handlers[h].pc
       case Leaving(ok) => ok ==> !BlindProbe(probe)
       case LeavingBlind => BlindProbe(probe) && |At(s.targets, path).mounts| == was
       case Unmounting => !BlindProbe(probe)
       case Removing => !BlindProbe(probe)
       case _ => false
  }

  /** The handler that takes the action, if one does. */
  function HandlerOf(a: Action): Option<nat> {
    if a.ServerChange? then None else Some(a.h)
  }

  /** While a handler is at work nobody else changes the number of mounts on its target. */
  lemma OthersKeepMounts(s: State, owner: string -> string, h: nat, a: Action)
    requires Safe(s, owner) && h in s.handlers && HandlerOf(a) != Some(h)
    ensures h in Step(s, a).handlers && Step(s, a).handlers[h] == s.handlers[h]
    ensures |At(Step(s, a).targets, s.handlers[h].target).mounts| == |At(s.targets, s.handlers[h].target).mounts|
  {
    if HandlerOf(a).Some? && a.h in s.handlers && s.handlers[a.h].target == s.handlers[h].target {
      Exclusive(s, owner, a.h, h);
    }
  }

  lemma StepAfterLook(s: State, owner: string -> string, h: nat, path: string, probe: Probe, was: nat, a: Action)
    requires Safe(s, owner) && HasLooked(s, h, path, probe, was) && a != Return(h)
    ensures HasLooked(Step(s, a), h, path, probe, was)
  {
    if HandlerOf(a) != Some(h) {
      OthersKeepMounts(s, owner, h, a);
    }
  }

  lemma {:induction false} RunAfterLook(s: State, owner: string -> string, h: nat, path: string, probe: Probe, was: nat,
                                        actions: seq<Action>)
    requires Safe(s, owner) && HasLooked(s, h, path, probe, was)
    requires OneVolumePerTarget(actions, owner) && Return(h) !in actions
    ensures HasLooked(Run(s, actions), h, path, probe, was)
  {
    if actions != [] {
      var n := |actions| - 1;
      RunAfterLook(s, owner, h, path, probe, was, actions[..n]);
      RunKeepsSafe(s, actions[..n], owner);
      StepAfterLook(Run(s, actions[..n]), owner, h, path, probe, was, actions[n]);
    }
  }

  /** An unpublish about to report success has nothing left on its target exactly if nothing was there when it looked or
      its probe did not fail, whatever happens on the node between the look and the reply. */
  lemma UnpublishSuccess(s: State, owner: string -> string, h: nat, probe: Probe, actions: seq<Action>)
    requires Safe(s, owner) && Enabled(s, Look(h, probe)) && s.handlers[h].op.Unpublish?
    requires OneVolumePerTarget(actions, owner) && Return(h) !in actions
    ensures var now := Run(Step(s, Look(h, probe)), actions);
            var path := s.handlers[h].target;
            && h in now.handlers && now.handlers[h].target == path
            && (now.handlers[h].pc in {Leaving(true), LeavingBlind} ==>
                  (At(now.targets, path).mounts == [] <==> At(s.targets, path).mounts == [] || !BlindProbe(probe)))
  {
    var looked := Step(s, Look(h, probe));
    var path := s.handlers[h].target;
    StepKeepsSafe(s, owner, Look(h, probe));
    RunAfterLook(looked, owner, h, path, probe, |At(s.targets, path).mounts|, actions);
    RunKeepsSafe(looked, actions, owner);
    var now := Run(looked, actions);
    assert Assured(now.handlers[h], At(now.targets, path));
  }

  /** Unpublishing a target whose mount went stale reports success, and the mount is still there. */
  lemma BlindUnpublish(volume: string, path: string) returns (run: seq<Action>)
    ensures var s := Run(EMPTY, run);
            1 in s.handlers && s.handlers[1] == Handler(Unpublish, volume, path, "", LeavingBlind)
            && At(s.targets, path).mounts == [Corrupted("")]
  {
    run := [];
    run := Extend(run, Enter(0, Publish, volume, path, ""));
    run := Extend(run, MakeDir(0, true));
    run := Extend(run, Look(0, NotMounted));
    run := Extend(run, DoMount(0, true));
    run := Extend(run, Return(0));
    run := Extend(run, ServerChange(path, false));
    run := Extend(run, Enter(1, Unpublish, volume, path, ""));
    run := Extend(run, Look(1, StaleMount));
  }
}
