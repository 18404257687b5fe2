/**
 The batch that `addResourcesToSandbox` runs: every volume and every container of a
 pod is added to the sandbox by its own task, containers subscribe a fail-aware wait
 group to the volumes they name, and a future set joins all the tasks.

 The model is an interleaving machine with one step per critical section. Calls that
 leave the daemon (mount, sandbox insert, rootfs preparation, ...) may succeed or fail.
 */
module Provisioning {
  import opened Basics
  import opened VolumeStates

  type VolumeId(==, !new)
  type ContainerId(==, !new)

  /** One task of the future set. Two tasks never share an identifier. */
  datatype TaskId = VolTask(v: VolumeId) | CtrTask(c: ContainerId) | AuxTask(a: string)

  datatype Volume = Volume(status: VolumeState, subscribers: seq<ContainerId>)

  /** The wait group of one container: its counter and the volumes that failed it. */
  datatype Group = Group(counter: int, errs: seq<VolumeId>)

  datatype VolPc =
    | VUnspawned | VTransit | VMount | VInsert | VSetInserted | VUmount | VSetFail
    | VNotify(ok: bool)  // holds the volume's lock while the subscribers are notified
    | VReport(err: bool) | VDone(err: bool)

  datatype CtrPc =
    | CUnspawned | CSubscribe(next: nat, seen: set<VolumeId>) | CPrepare | CWait | CAdd
    | CReport(err: bool) | CDone(err: bool)

  datatype AuxPc = AUnspawned | ARun | AReport(err: bool) | ADone(err: bool)

  datatype MainPc = MSpawn(next: nat) | MFinished | MTimedOut

  datatype Msg = Msg(task: TaskId, err: bool)

  /**
   What the batch starts from: the status of every volume of the pod, the volume names
   in every container's specification, the other tasks, the order in which the tasks
   are spawned, the volumes whose sandbox insert may fail after a successful mount, and
   the volumes that somebody outside the batch is inserting. A volume that is INSERTING
   without that was left so by an inserter that is gone or hangs.
   */
  datatype Config = Config(
    volumes: map<VolumeId, VolumeState>,
    specs: map<ContainerId, seq<VolumeId>>,
    aux: set<string>,
    order: seq<TaskId>,
    flaky: set<VolumeId>,
    outside: set<VolumeId>)

  predicate IsTask(cfg: Config, t: TaskId) {
    match t
    case VolTask(v) => v in cfg.volumes
    case CtrTask(c) => c in cfg.specs
    case AuxTask(a) => a in cfg.aux
  }

  /** An outside inserter has made its volume INSERTING. */
  ghost predicate OutsideOk(cfg: Config) {
    forall v :: v in cfg.outside ==> v in cfg.volumes && cfg.volumes[v] == Inserting
  }

  /** Every task is spawned exactly once, in any order. */
  ghost predicate ValidConfig(cfg: Config) {
    && OutsideOk(cfg)
    && NoDup(cfg.order)
    && (forall t :: t in cfg.order <==> IsTask(cfg, t))
  }

  datatype State = State(
    vols: map<VolumeId, Volume>,
    groups: map<ContainerId, Group>,
    volPc: map<VolumeId, VolPc>,
    outPc: map<VolumeId, VolPc>,  // the outside inserters, up to VReport
    ctrPc: map<ContainerId, CtrPc>,
    auxPc: map<string, AuxPc>,
    chan: seq<Msg>,          // resultChan, capacity one
    waitList: set<TaskId>,
    failed: set<TaskId>,     // the keys of `errs` in FutureSet.Wait
    main: MainPc)

  function Init(cfg: Config): State {
    State(
      map v | v in cfg.volumes :: Volume(cfg.volumes[v], []),
      map c | c in cfg.specs :: Group(0, []),
      map v | v in cfg.volumes :: VUnspawned,
      map v | v in cfg.outside :: VMount,
      map c | c in cfg.specs :: CUnspawned,
      map a | a in cfg.aux :: AUnspawned,
      [], {}, {}, MSpawn(0))
  }

  /** What a volume's task does on its own volume: `Volume.add`, one critical section at a time. */
  datatype VolAct =
    | Transit | Mount(ok: bool) | Insert(ok: bool) | SetInserted | Umount(ok: bool) | SetFail | Unlock

  /** What a container's task does on its own: the rest of `Container.addToSandbox`. */
  datatype CtrAct = Subscribed | Prepare(ok: bool) | Wake | AddContainer(ok: bool)

  datatype Step =
    | Spawn | Receive | Finish | Timeout
    | VolLocal(v: VolumeId, vact: VolAct) | OutLocal(v: VolumeId, vact: VolAct)
    | Notify(v: VolumeId) | VolSend(v: VolumeId)
    | Subscribe(c: ContainerId) | CtrLocal(c: ContainerId, cact: CtrAct) | CtrSend(c: ContainerId)
    | AuxRun(a: string, ok: bool) | AuxSend(a: string)

  predicate VolCan(pc: VolPc, act: VolAct, flaky: bool, queueEmpty: bool) {
    match act
    case Transit => pc.VTransit?
    case Mount(ok) => pc.VMount?
    case Insert(ok) => pc.VInsert? && (ok || flaky)
    case SetInserted => pc.VSetInserted?
    case Umount(ok) => pc.VUmount?
    case SetFail => pc.VSetFail?
    case Unlock => pc.VNotify? && queueEmpty
  }

  /** The action takes the volume's lock. */
  predicate TakesLock(act: VolAct) {
    act.Transit? || act.SetInserted? || act.Umount? || act.SetFail?
  }

  /** The volume's status and its task's position after the action. */
  function VolMove(status: VolumeState, pc: VolPc, act: VolAct): (VolumeState, VolPc)
    requires act.Unlock? ==> pc.VNotify?
  {
    match act
    case Transit =>
      var (to, outcome) := BeginInsert(status);
      (to, match outcome case Changed => VMount case Ignored => VReport(false) case Illegal => VReport(true))
    case Mount(ok) => (status, if ok then VInsert else VSetFail)
    case Insert(ok) => (status, if ok then VSetInserted else VUmount)
    case SetInserted => (EndInsert(status, Inserted).0, VNotify(true))
    case Umount(ok) => (if ok then Created else Error, VSetFail)
    case SetFail => (EndInsert(status, Error).0, VNotify(false))
    case Unlock => (status, VReport(!pc.ok))
  }

  predicate CtrCan(pc: CtrPc, act: CtrAct, names: nat, counter: int) {
    match act
    case Subscribed => pc.CSubscribe? && pc.next >= names
    case Prepare(ok) => pc.CPrepare?
    case Wake => pc.CWait? && counter == 0
    case AddContainer(ok) => pc.CAdd?
  }

  function CtrMove(act: CtrAct, anyVolume: bool, failed: bool): CtrPc {
    match act
    case Subscribed => CPrepare
    case Prepare(ok) => if !ok then CReport(true) else if anyVolume then CWait else CAdd
    case Wake => if failed then CReport(true) else CAdd
    case AddContainer(ok) => CReport(!ok)
  }

  predicate VolAt(s: State, v: VolumeId) {
    v in s.vols && v in s.volPc
  }

  predicate CtrAt(cfg: Config, s: State, c: ContainerId) {
    c in cfg.specs && c in s.groups && c in s.ctrPc
  }

  /** The batch's task or the outside inserter holds the volume's lock to notify. */
  predicate Locked(s: State, v: VolumeId) {
    (v in s.volPc && s.volPc[v].VNotify?) || (v in s.outPc && s.outPc[v].VNotify?)
  }

  predicate GoodNews(s: State, v: VolumeId)
    requires Locked(s, v)
  {
    if v in s.volPc && s.volPc[v].VNotify? then s.volPc[v].ok else s.outPc[v].ok
  }

  predicate Waiting(cfg: Config, s: State) {
    s.main.MSpawn? && s.main.next >= |cfg.order|
  }

  /** The next name is a volume of the pod that the container has not met before. */
  predicate FreshName(cfg: Config, s: State, c: ContainerId)
    requires CtrAt(cfg, s, c) && s.ctrPc[c].CSubscribe? && s.ctrPc[c].next < |cfg.specs[c]|
  {
    var v := cfg.specs[c][s.ctrPc[c].next];
    v !in s.ctrPc[c].seen && v in s.vols
  }

  /** The step can be taken now. */
  predicate Enabled(cfg: Config, s: State, st: Step) {
    match st
    case Spawn => s.main.MSpawn? && s.main.next < |cfg.order|
    case Receive => Waiting(cfg, s) && s.waitList != {} && s.chan != []
    case Finish => Waiting(cfg, s) && s.waitList == {}
    case Timeout => Waiting(cfg, s) && s.waitList != {}
    case VolLocal(v, act) =>
      && VolAt(s, v) && (TakesLock(act) ==> !Locked(s, v))
      && VolCan(s.volPc[v], act, v in cfg.flaky, s.vols[v].subscribers == [])
    case OutLocal(v, act) =>
      && VolAt(s, v) && v in s.outPc && (TakesLock(act) ==> !Locked(s, v))
      && VolCan(s.outPc[v], act, v in cfg.flaky, s.vols[v].subscribers == [])
    case Notify(v) =>
      && VolAt(s, v) && Locked(s, v)
      && s.vols[v].subscribers != [] && s.vols[v].subscribers[0] in s.groups
    case VolSend(v) => VolAt(s, v) && s.volPc[v].VReport? && s.chan == []
    case Subscribe(c) =>
      && CtrAt(cfg, s, c) && s.ctrPc[c].CSubscribe?
      && s.ctrPc[c].next < |cfg.specs[c]|
      && (FreshName(cfg, s, c) ==> !Locked(s, cfg.specs[c][s.ctrPc[c].next]))
    case CtrLocal(c, act) =>
      CtrAt(cfg, s, c) && CtrCan(s.ctrPc[c], act, |cfg.specs[c]|, s.groups[c].counter)
    case CtrSend(c) => CtrAt(cfg, s, c) && s.ctrPc[c].CReport? && s.chan == []
    case AuxRun(a, ok) => a in s.auxPc && s.auxPc[a].ARun?
    case AuxSend(a) => a in s.auxPc && s.auxPc[a].AReport? && s.chan == []
  }

  function SpawnTask(cfg: Config, s: State, t: TaskId): State {
    match t
    case VolTask(v) => s.(volPc := s.volPc[v := VTransit])
    case CtrTask(c) => s.(ctrPc := s.ctrPc[c := CSubscribe(0, {})])
    case AuxTask(a) => s.(auxPc := s.auxPc[a := ARun])
  }

  /** `subscribeInsert` on the next name of the container's list. */
  function SubscribeNext(cfg: Config, s: State, c: ContainerId): State
    requires CtrAt(cfg, s, c) && s.ctrPc[c].CSubscribe? && s.ctrPc[c].next < |cfg.specs[c]|
  {
    var CSubscribe(k, seen) := s.ctrPc[c];
    var v := cfg.specs[c][k];
    if !FreshName(cfg, s, c) then
      s.(ctrPc := s.ctrPc[c := CSubscribe(k + 1, seen)])
    else
      match SubscribeOutcome(s.vols[v].status)
      case Ready => s.(ctrPc := s.ctrPc[c := CSubscribe(k + 1, seen + {v})])
      case Refused => s.(ctrPc := s.ctrPc[c := CReport(true)])
      case Queued =>
        s.(vols := s.vols[v := s.vols[v].(subscribers := s.vols[v].subscribers + [c])],
           groups := s.groups[c := s.groups[c].(counter := s.groups[c].counter + 1)],
           ctrPc := s.ctrPc[c := CSubscribe(k + 1, seen + {v})])
  }

  /** `wg.Done()` or `wg.Fail(err)` on the first subscriber that is still to be notified. */
  function NotifyHead(s: State, v: VolumeId): State
    requires VolAt(s, v) && Locked(s, v)
    requires s.vols[v].subscribers != [] && s.vols[v].subscribers[0] in s.groups
  {
    var subs := s.vols[v].subscribers;
    var c := subs[0];
    var g := s.groups[c];
    s.(vols := s.vols[v := s.vols[v].(subscribers := subs[1..])],
       groups := s.groups[c := Group(g.counter - 1, if GoodNews(s, v) then g.errs else g.errs + [v])])
  }

  /** The volumes of the pod that the container names. */
  function Named(cfg: Config, c: ContainerId): set<VolumeId>
    requires c in cfg.specs
  {
    set v | v in cfg.specs[c] && v in cfg.volumes
  }

  function Apply(cfg: Config, s: State, st: Step): State
    requires Enabled(cfg, s, st)
  {
    match st
    case Spawn =>
      var t := cfg.order[s.main.next];
      SpawnTask(cfg, s, t).(main := MSpawn(s.main.next + 1), waitList := s.waitList + {t})
    case Receive =>
      var m := s.chan[0];
      s.(chan := s.chan[1..], waitList := s.waitList - {m.task},
         failed := if m.err then s.failed + {m.task} else s.failed)
    case Finish => s.(main := MFinished)
    case Timeout => s.(main := MTimedOut)
    case VolLocal(v, act) =>
      var (status, pc) := VolMove(s.vols[v].status, s.volPc[v], act);
      s.(vols := s.vols[v := s.vols[v].(status := status)], volPc := s.volPc[v := pc])
    case OutLocal(v, act) =>
      var (status, pc) := VolMove(s.vols[v].status, s.outPc[v], act);
      s.(vols := s.vols[v := s.vols[v].(status := status)], outPc := s.outPc[v := pc])
    case Notify(v) => NotifyHead(s, v)
    case VolSend(v) =>
      s.(volPc := s.volPc[v := VDone(s.volPc[v].err)], chan := [Msg(VolTask(v), s.volPc[v].err)])
    case Subscribe(c) => SubscribeNext(cfg, s, c)
    case CtrLocal(c, act) =>
      s.(ctrPc := s.ctrPc[c := CtrMove(act, Named(cfg, c) != {}, s.groups[c].errs != [])])
    case CtrSend(c) =>
      s.(ctrPc := s.ctrPc[c := CDone(s.ctrPc[c].err)], chan := [Msg(CtrTask(c), s.ctrPc[c].err)])
    case AuxRun(a, ok) => s.(auxPc := s.auxPc[a := AReport(!ok)])
    case AuxSend(a) =>
      s.(auxPc := s.auxPc[a := ADone(s.auxPc[a].err)], chan := [Msg(AuxTask(a), s.auxPc[a].err)])
  }

  /** The state a schedule leads to, if every one of its steps is enabled in turn. */
  function Exec(cfg: Config, s: State, steps: seq<Step>): Option<State>
    decreases |steps|
  {
    if steps == [] then Some(s)
    else if Enabled(cfg, s, steps[0]) then Exec(cfg, Apply(cfg, s, steps[0]), steps[1..])
    else None
  }

  ghost predicate Reachable(cfg: Config, s: State) {
    exists steps :: Exec(cfg, Init(cfg), steps) == Some(s)
  }
}
