/** What every schedule of a provisioning batch keeps. */
module ProvisioningSafety {
  import opened Basics
  import opened VolumeStates
  import opened Provisioning

  /** The volumes whose subscriber list holds the container's wait group. */
  ghost function Sites(s: State, c: ContainerId): set<VolumeId> {
    set v | v in s.vols && c in s.vols[v].subscribers
  }

  /** The named volumes the container has passed in its subscription loop. */
  ghost function Processed(cfg: Config, s: State, c: ContainerId): set<VolumeId>
    requires c in cfg.specs && c in s.ctrPc
  {
    match s.ctrPc[c]
    case CUnspawned => {}
    case CSubscribe(_, seen) => seen
    case _ => Named(cfg, c)
  }

  ghost predicate Domains(cfg: Config, s: State) {
    && s.outPc.Keys == cfg.outside <= cfg.volumes.Keys
    && s.vols.Keys == s.volPc.Keys == cfg.volumes.Keys
    && s.groups.Keys == s.ctrPc.Keys == cfg.specs.Keys
    && s.auxPc.Keys == cfg.aux
  }

  // ---- one volume: its status, its task, its outside inserter and its queue ----

  /** The outside inserter of a volume, if it has one. */
  ghost function Out(s: State, v: VolumeId): Option<VolPc> {
    if v in s.outPc then Some(s.outPc[v]) else None
  }

  /** How a volume's status follows its task; `start` is its status when the batch began. */
  predicate StatusRel(start: VolumeState, flaky: bool, status: VolumeState, pc: VolPc) {
    && (start != Created ==> status == start)
    && match pc
       case VUnspawned => status == start
       case VTransit => status == start
       case VMount => start == Created && status == Inserting
       case VInsert => start == Created && status == Inserting
       case VSetInserted => start == Created && status == Inserting
       case VUmount => start == Created && status == Inserting && flaky
       case VSetFail => start == Created && (status == Created ==> flaky) && status != Inserted
       case VNotify(ok) =>
         start == Created && if ok then status == Inserted else status == Error || (status == Created && flaky)
       case VReport(err) => Settled(start, flaky, status, err)
       case VDone(err) => Settled(start, flaky, status, err)
  }

  /** The outcomes of `Volume.add`. */
  predicate Settled(start: VolumeState, flaky: bool, status: VolumeState, err: bool) {
    if err then status == Error || (status == Created && start == Created && flaky)
    else status == Inserted || (status == Inserting && start == Inserting)
  }

  /** The batch's task has not met the volume yet, or has found it INSERTING or INSERTED. */
  predicate Bystander(pc: VolPc) {
    pc.VUnspawned? || pc.VTransit? || pc == VReport(false) || pc == VDone(false)
  }

  /** How the status follows task and outside inserter, while the inserter is at `out`. */
  predicate OutsideRel(flaky: bool, status: VolumeState, pc: VolPc, out: VolPc) {
    match out
    case VMount => Bystander(pc) && status == Inserting
    case VInsert => Bystander(pc) && status == Inserting
    case VSetInserted => Bystander(pc) && status == Inserting
    case VUmount => Bystander(pc) && status == Inserting && flaky
    case VSetFail => AfterFail(flaky, status, pc, true)
    case VNotify(ok) => if ok then Bystander(pc) && status == Inserted else AfterFail(flaky, status, pc, false)
    case VReport(err) => if err then AfterFail(flaky, status, pc, false) else Bystander(pc) && status == Inserted
    case _ => false
  }

  /**
   The outside inserter has failed, and is still to say so if `silent`. When its `umount` has
   made the volume CREATED the batch's task may insert it a second time.
   */
  predicate AfterFail(flaky: bool, status: VolumeState, pc: VolPc, silent: bool) {
    match pc
    case VUnspawned => status == (if silent then Inserting else Error) || (flaky && (status == Created || status == Error))
    case VTransit => status == (if silent then Inserting else Error) || (flaky && (status == Created || status == Error))
    case VMount => flaky && (status == Inserting || (status == Error && !silent))
    case VInsert => flaky && (status == Inserting || (status == Error && !silent))
    case VSetInserted => flaky && (status == Inserting || (status == Error && !silent))
    case VUmount => flaky && (status == Inserting || (status == Error && !silent))
    case VSetFail => flaky && status != Inserted
    case VNotify(ok) =>
      flaky && if ok then status == Inserted || (status == Error && !silent) else status == Error || status == Created
    case VReport(err) => AfterBoth(flaky, status, err, silent)
    case VDone(err) => AfterBoth(flaky, status, err, silent)
  }

  predicate AfterBoth(flaky: bool, status: VolumeState, err: bool, silent: bool) {
    if err then status == Error || (flaky && status == Created)
    else status == (if silent then Inserting else Error) || (flaky && status != Inserting)
  }

  predicate VolumeRel(start: VolumeState, flaky: bool, status: VolumeState, pc: VolPc, out: Option<VolPc>) {
    if out.None? then StatusRel(start, flaky, status, pc)
    else start == Inserting && OutsideRel(flaky, status, pc, out.value)
  }

  /** Somebody holds the volume's lock to notify. */
  predicate Telling(pc: VolPc, out: Option<VolPc>) {
    pc.VNotify? || (out.Some? && out.value.VNotify?)
  }

  /** When the queue of a volume must be empty. */
  predicate QueueRel(status: VolumeState, pc: VolPc, out: Option<VolPc>, empty: bool) {
    && (status == Inserted && !Telling(pc, out) ==> empty)
    && (status == Error && !Telling(pc, out) && !pc.VSetFail? && out != Some(VSetFail) ==> empty)
    && (pc == VNotify(true) && status != Inserted ==> empty)
  }

  ghost predicate StatusOk(cfg: Config, s: State, v: VolumeId)
    requires Domains(cfg, s) && v in cfg.volumes
  {
    VolumeRel(cfg.volumes[v], v in cfg.flaky, s.vols[v].status, s.volPc[v], Out(s, v))
  }

  /** A move of the batch's task. */
  lemma VolMoveRel(start: VolumeState, flaky: bool, status: VolumeState, pc: VolPc, out: Option<VolPc>, act: VolAct, empty: bool)
    requires VolumeRel(start, flaky, status, pc, out) && QueueRel(status, pc, out, empty)
    requires VolCan(pc, act, flaky, empty) && (TakesLock(act) ==> !Telling(pc, out))
    ensures var (status', pc') := VolMove(status, pc, act);
            && VolumeRel(start, flaky, status', pc', out) && QueueRel(status', pc', out, empty)
            && (status == Inserted ==> status' == Inserted) && (Failing(pc) ==> Failing(pc'))
  {
    if out.Some? { OutsideMoveRel(flaky, status, pc, out.value, act, empty); }
  }

  lemma OutsideMoveRel(flaky: bool, status: VolumeState, pc: VolPc, out: VolPc, act: VolAct, empty: bool)
    requires OutsideRel(flaky, status, pc, out) && QueueRel(status, pc, Some(out), empty)
    requires VolCan(pc, act, flaky, empty) && (TakesLock(act) ==> !Telling(pc, Some(out)))
    ensures var (status', pc') := VolMove(status, pc, act);
            && OutsideRel(flaky, status', pc', out) && QueueRel(status', pc', Some(out), empty)
            && (status == Inserted ==> status' == Inserted) && (Failing(pc) ==> Failing(pc'))
  {
  }

  /** A move of the outside inserter. */
  lemma OutMoveRel(flaky: bool, status: VolumeState, pc: VolPc, out: VolPc, act: VolAct, empty: bool)
    requires OutsideRel(flaky, status, pc, out) && QueueRel(status, pc, Some(out), empty)
    requires VolCan(out, act, flaky, empty) && (TakesLock(act) ==> !Telling(pc, Some(out)))
    ensures var (status', out') := VolMove(status, out, act);
            && OutsideRel(flaky, status', pc, out') && QueueRel(status', pc, Some(out'), empty)
            && (status == Inserted ==> status' == Inserted) && (Failing(out) ==> Failing(out'))
  {
  }

  /** Who may be queued on a volume. */
  ghost predicate QueueOk(cfg: Config, s: State, v: VolumeId)
    requires Domains(cfg, s) && v in cfg.volumes
  {
    var Volume(status, subs) := s.vols[v];
    && NoDup(subs) && QueueRel(status, s.volPc[v], Out(s, v), subs == [])
    && (forall c :: c in subs ==> c in cfg.specs && v in Processed(cfg, s, c))
  }

  /** The task is past the point where it starts to fail its subscribers. */
  predicate Failing(pc: VolPc) {
    pc == VNotify(false) || pc == VReport(true) || pc == VDone(true)
  }

  ghost predicate FailedVol(s: State, v: VolumeId) {
    (v in s.volPc && Failing(s.volPc[v])) || (v in s.outPc && Failing(s.outPc[v]))
  }

  /** A volume that the container has passed was inserted, will still notify it, or has failed it. */
  ghost predicate Accounted(s: State, c: ContainerId, w: VolumeId)
    requires c in s.groups && w in s.vols
  {
    s.vols[w].status == Inserted || c in s.vols[w].subscribers || w in s.groups[c].errs
  }

  ghost predicate Covered(cfg: Config, s: State, c: ContainerId, ws: set<VolumeId>)
    requires Domains(cfg, s) && c in cfg.specs && ws <= cfg.volumes.Keys
  {
    forall w :: w in ws ==> cfg.volumes[w] != Error && Accounted(s, c, w)
  }

  ghost predicate GroupOk(cfg: Config, s: State, c: ContainerId)
    requires Domains(cfg, s) && c in cfg.specs
  {
    && s.groups[c].counter == |Sites(s, c)|
    && (forall w :: w in s.groups[c].errs ==> w in cfg.volumes && w in Processed(cfg, s, c) && FailedVol(s, w))
  }

  ghost predicate CtrOk(cfg: Config, s: State, c: ContainerId)
    requires Domains(cfg, s) && c in cfg.specs
  {
    match s.ctrPc[c]
    case CUnspawned => true
    case CSubscribe(k, seen) =>
      && k <= |cfg.specs[c]|
      && seen == (set w | w in cfg.specs[c][..k] && w in cfg.volumes)
      && Covered(cfg, s, c, seen)
    case CPrepare => Covered(cfg, s, c, Named(cfg, c))
    case CWait => Covered(cfg, s, c, Named(cfg, c))
    case CAdd => AllInserted(cfg, s, c)
    case CReport(err) => !err ==> AllInserted(cfg, s, c)
    case CDone(err) => !err ==> AllInserted(cfg, s, c)
  }

  ghost predicate AllInserted(cfg: Config, s: State, c: ContainerId)
    requires Domains(cfg, s) && c in cfg.specs
  {
    forall v :: v in Named(cfg, c) ==> s.vols[v].status == Inserted
  }

  ghost function SpawnCount(cfg: Config, s: State): nat {
    if s.main.MSpawn? && s.main.next <= |cfg.order| then s.main.next else |cfg.order|
  }

  datatype Phase = Unspawned | Running | Ended(err: bool)

  function VolPhase(pc: VolPc): Phase {
    if pc.VUnspawned? then Unspawned else if pc.VDone? then Ended(pc.err) else Running
  }

  function CtrPhase(pc: CtrPc): Phase {
    if pc.CUnspawned? then Unspawned else if pc.CDone? then Ended(pc.err) else Running
  }

  function AuxPhase(pc: AuxPc): Phase {
    if pc.AUnspawned? then Unspawned else if pc.ADone? then Ended(pc.err) else Running
  }

  /** How far a task is, as the future set sees it. */
  ghost function PhaseOf(cfg: Config, s: State, t: TaskId): Phase
    requires Domains(cfg, s) && IsTask(cfg, t)
  {
    match t
    case VolTask(v) => VolPhase(s.volPc[v])
    case CtrTask(c) => CtrPhase(s.ctrPc[c])
    case AuxTask(a) => AuxPhase(s.auxPc[a])
  }

  /** What the wait list, the channel and the error map hold for one task. */
  ghost predicate JoinedOk(cfg: Config, s: State, t: TaskId)
    requires Domains(cfg, s) && IsTask(cfg, t)
  {
    var ph := PhaseOf(cfg, s, t);
    && (ph == Unspawned <==> t !in cfg.order[..SpawnCount(cfg, s)])
    && (ph == Unspawned ==> t !in s.waitList)
    && (ph == Running ==> t in s.waitList)
    && (ph.Ended? && t in s.waitList ==> s.chan == [Msg(t, ph.err)])
    && (ph.Ended? && t !in s.waitList ==> (ph.err <==> t in s.failed))
    && (t in s.failed ==> ph == Ended(true))
  }

  ghost predicate JoinOk(cfg: Config, s: State)
    requires Domains(cfg, s)
  {
    && (s.main.MSpawn? ==> s.main.next <= |cfg.order|)
    && |s.chan| <= 1
    && (forall t {:trigger JoinedOk(cfg, s, t)} :: IsTask(cfg, t) ==> JoinedOk(cfg, s, t))
    && (forall t :: t in s.waitList || t in s.failed ==> IsTask(cfg, t))
    && (s.chan != [] ==> s.chan[0].task in s.waitList && PhaseOf(cfg, s, s.chan[0].task) == Ended(s.chan[0].err))
    && (s.main.MFinished? ==> s.waitList == {})
  }

  ghost predicate VolInv(cfg: Config, s: State, v: VolumeId)
    requires Domains(cfg, s) && v in cfg.volumes
  {
    StatusOk(cfg, s, v) && QueueOk(cfg, s, v)
  }

  ghost predicate CtrInv(cfg: Config, s: State, c: ContainerId)
    requires Domains(cfg, s) && c in cfg.specs
  {
    GroupOk(cfg, s, c) && CtrOk(cfg, s, c)
  }

  /** The part of the invariant that is about volumes and wait groups. */
  ghost predicate CoreInv(cfg: Config, s: State) {
    && Domains(cfg, s)
    && (forall v {:trigger VolInv(cfg, s, v)} :: v in cfg.volumes ==> VolInv(cfg, s, v))
    && (forall c {:trigger CtrInv(cfg, s, c)} :: c in cfg.specs ==> CtrInv(cfg, s, c))
  }

  ghost predicate Inv(cfg: Config, s: State) {
    CoreInv(cfg, s) && JoinOk(cfg, s)
  }

  lemma InitInv(cfg: Config)
    requires ValidConfig(cfg)
    ensures Inv(cfg, Init(cfg))
  {
    var s := Init(cfg);
    forall c | c in cfg.specs ensures GroupOk(cfg, s, c) {
      assert Sites(s, c) == {};
    }
    forall t | IsTask(cfg, t) ensures JoinedOk(cfg, s, t) {
      assert PhaseOf(cfg, s, t) == Unspawned;
    }
  }

  /** Every queue is as it was, and no volume took back a success or a failure. */
  ghost predicate Steady(s: State, s': State) {
    && s'.vols.Keys == s.vols.Keys
    && (forall v :: v in s.vols ==> s'.vols[v].subscribers == s.vols[v].subscribers)
    && (forall v :: v in s.vols && s.vols[v].status == Inserted ==> s'.vols[v].status == Inserted)
    && (forall v :: FailedVol(s, v) ==> FailedVol(s', v))
  }

  lemma FrameContainer(cfg: Config, s: State, s': State, c: ContainerId)
    requires Domains(cfg, s) && Domains(cfg, s') && c in cfg.specs && Steady(s, s')
    requires CtrInv(cfg, s, c)
    requires s'.groups[c] == s.groups[c] && s'.ctrPc[c] == s.ctrPc[c]
    ensures CtrInv(cfg, s', c)
  {
    assert Sites(s', c) == Sites(s, c);
    assert Processed(cfg, s', c) == Processed(cfg, s, c);
    forall w | w in s.vols && Accounted(s, c, w) ensures Accounted(s', c, w) {}
  }

  ghost predicate ProcessedGrows(cfg: Config, s: State, s': State)
    requires Domains(cfg, s) && Domains(cfg, s')
  {
    forall c :: c in cfg.specs ==> Processed(cfg, s, c) <= Processed(cfg, s', c)
  }

  /** The batch's task of the volume and its outside inserter are where they were. */
  ghost predicate SamePcs(cfg: Config, s: State, s': State, v: VolumeId)
    requires Domains(cfg, s) && Domains(cfg, s') && v in cfg.volumes
  {
    s'.volPc[v] == s.volPc[v] && (v in cfg.outside ==> s'.outPc[v] == s.outPc[v])
  }

  lemma FrameVolume(cfg: Config, s: State, s': State, v: VolumeId)
    requires Domains(cfg, s) && Domains(cfg, s') && v in cfg.volumes
    requires VolInv(cfg, s, v)
    requires s'.vols[v] == s.vols[v] && SamePcs(cfg, s, s', v)
    requires ProcessedGrows(cfg, s, s')
    ensures VolInv(cfg, s', v)
  {
    forall c | c in s'.vols[v].subscribers ensures v in Processed(cfg, s', c) {}
  }

  lemma VolOnlyContainers(cfg: Config, s: State, s': State, v: VolumeId)
    requires CoreInv(cfg, s) && Domains(cfg, s') && v in cfg.volumes
    requires s'.groups == s.groups && s'.ctrPc == s.ctrPc
    requires forall u :: u in cfg.volumes && u != v ==> s'.vols[u] == s.vols[u] && SamePcs(cfg, s, s', u)
    requires s'.vols[v].subscribers == s.vols[v].subscribers
    requires s.vols[v].status == Inserted ==> s'.vols[v].status == Inserted
    requires FailedVol(s, v) ==> FailedVol(s', v)
    ensures forall c :: c in cfg.specs ==> CtrInv(cfg, s', c)
  {
    assert Steady(s, s');
    forall c | c in cfg.specs ensures CtrInv(cfg, s', c) {
      FrameContainer(cfg, s, s', c);
    }
  }

  /** Only the task of `v` moved, and it notified nobody. */
  lemma VolOnly(cfg: Config, s: State, s': State, v: VolumeId)
    requires CoreInv(cfg, s) && Domains(cfg, s') && v in cfg.volumes
    requires s'.groups == s.groups && s'.ctrPc == s.ctrPc
    requires forall u :: u in cfg.volumes && u != v ==> s'.vols[u] == s.vols[u] && SamePcs(cfg, s, s', u)
    requires s'.vols[v].subscribers == s.vols[v].subscribers
    requires s.vols[v].status == Inserted ==> s'.vols[v].status == Inserted
    requires FailedVol(s, v) ==> FailedVol(s', v)
    requires StatusOk(cfg, s', v) && QueueRel(s'.vols[v].status, s'.volPc[v], Out(s', v), s.vols[v].subscribers == [])
    ensures CoreInv(cfg, s')
  {
    VolOnlyContainers(cfg, s, s', v);
    assert ProcessedGrows(cfg, s, s');
    forall u | u in cfg.volumes ensures VolInv(cfg, s', u) {
      assert VolInv(cfg, s, u);
      if u != v { FrameVolume(cfg, s, s', u); }
    }
  }

  /** Only the task of `c` moved, and it queued nothing. */
  lemma CtrOnly(cfg: Config, s: State, s': State, c: ContainerId)
    requires CoreInv(cfg, s) && Domains(cfg, s') && c in cfg.specs
    requires s'.vols == s.vols && s'.volPc == s.volPc && s'.outPc == s.outPc && s'.groups == s.groups
    requires forall d :: d in cfg.specs && d != c ==> s'.ctrPc[d] == s.ctrPc[d]
    requires Processed(cfg, s, c) <= Processed(cfg, s', c)
    requires CtrOk(cfg, s', c)
    ensures CoreInv(cfg, s')
  {
    assert Steady(s, s');
    forall d | d in cfg.specs
      ensures CtrInv(cfg, s', d) && Processed(cfg, s, d) <= Processed(cfg, s', d)
    {
      assert CtrInv(cfg, s, d);
      if d != c {
        FrameContainer(cfg, s, s', d);
      } else {
        assert Sites(s', d) == Sites(s, d);
      }
    }
    forall u | u in cfg.volumes ensures VolInv(cfg, s', u) {
      FrameVolume(cfg, s, s', u);
    }
  }

  /** The task of `v` moves to `pc` and leaves the volume with `status`. */
  lemma VolMoved(cfg: Config, s: State, v: VolumeId, status: VolumeState, pc: VolPc)
    requires CoreInv(cfg, s) && v in cfg.volumes
    requires VolumeRel(cfg.volumes[v], v in cfg.flaky, status, pc, Out(s, v))
    requires QueueRel(status, pc, Out(s, v), s.vols[v].subscribers == [])
    requires s.vols[v].status == Inserted ==> status == Inserted
    requires Failing(s.volPc[v]) ==> Failing(pc)
    ensures CoreInv(cfg, s.(vols := s.vols[v := s.vols[v].(status := status)], volPc := s.volPc[v := pc]))
  {
    VolOnly(cfg, s, s.(vols := s.vols[v := s.vols[v].(status := status)], volPc := s.volPc[v := pc]), v);
  }

  lemma VolLocalCore(cfg: Config, s: State, v: VolumeId, act: VolAct)
    requires CoreInv(cfg, s) && Enabled(cfg, s, VolLocal(v, act))
    ensures CoreInv(cfg, Apply(cfg, s, VolLocal(v, act)))
  {
    assert VolInv(cfg, s, v);
    VolMoveRel(cfg.volumes[v], v in cfg.flaky, s.vols[v].status, s.volPc[v], Out(s, v), act, s.vols[v].subscribers == []);
    var (status, pc) := VolMove(s.vols[v].status, s.volPc[v], act);
    VolMoved(cfg, s, v, status, pc);
  }

  /** The outside inserter of `v` moves to `pc` and leaves the volume with `status`. */
  lemma OutMoved(cfg: Config, s: State, v: VolumeId, status: VolumeState, pc: VolPc)
    requires CoreInv(cfg, s) && v in cfg.outside
    requires VolumeRel(cfg.volumes[v], v in cfg.flaky, status, s.volPc[v], Some(pc))
    requires QueueRel(status, s.volPc[v], Some(pc), s.vols[v].subscribers == [])
    requires s.vols[v].status == Inserted ==> status == Inserted
    requires Failing(s.outPc[v]) ==> Failing(pc)
    ensures CoreInv(cfg, s.(vols := s.vols[v := s.vols[v].(status := status)], outPc := s.outPc[v := pc]))
  {
    VolOnly(cfg, s, s.(vols := s.vols[v := s.vols[v].(status := status)], outPc := s.outPc[v := pc]), v);
  }

  lemma OutLocalCore(cfg: Config, s: State, v: VolumeId, act: VolAct)
    requires CoreInv(cfg, s) && Enabled(cfg, s, OutLocal(v, act))
    ensures CoreInv(cfg, Apply(cfg, s, OutLocal(v, act)))
  {
    assert VolInv(cfg, s, v);
    OutMoveRel(v in cfg.flaky, s.vols[v].status, s.volPc[v], s.outPc[v], act, s.vols[v].subscribers == []);
    var (status, pc) := VolMove(s.vols[v].status, s.outPc[v], act);
    OutMoved(cfg, s, v, status, pc);
  }

  lemma VolSendCore(cfg: Config, s: State, v: VolumeId)
    requires CoreInv(cfg, s) && Enabled(cfg, s, VolSend(v))
    ensures CoreInv(cfg, Apply(cfg, s, VolSend(v)))
  {
    assert VolInv(cfg, s, v);
    var s1 := s.(volPc := s.volPc[v := VDone(s.volPc[v].err)]);
    assert s.vols[v := s.vols[v].(status := s.vols[v].status)] == s.vols;
    VolMoved(cfg, s, v, s.vols[v].status, VDone(s.volPc[v].err));
    QuietCore(cfg, s1, Apply(cfg, s, VolSend(v)));
  }

  lemma NotifySites(cfg: Config, s: State, v: VolumeId, c: ContainerId)
    requires Domains(cfg, s) && c in cfg.specs && Enabled(cfg, s, Notify(v)) && VolInv(cfg, s, v)
    ensures Domains(cfg, NotifyHead(s, v))
    ensures var hd := s.vols[v].subscribers[0];
            Sites(NotifyHead(s, v), c) == if c == hd then Sites(s, c) - {v} else Sites(s, c)
    ensures v in Sites(s, s.vols[v].subscribers[0])
  {
    var subs := s.vols[v].subscribers;
    var hd := subs[0];
    assert hd !in subs[1..];
    assert forall d :: d != hd ==> (d in subs <==> d in subs[1..]);
  }

  lemma NotifyAccounted(cfg: Config, s: State, v: VolumeId, c: ContainerId, w: VolumeId)
    requires Domains(cfg, s) && c in cfg.specs && Enabled(cfg, s, Notify(v)) && VolInv(cfg, s, v)
    requires Domains(cfg, NotifyHead(s, v)) && w in s.vols && Accounted(s, c, w)
    ensures Accounted(NotifyHead(s, v), c, w)
  {
    var subs := s.vols[v].subscribers;
    assert subs == [subs[0]] + subs[1..];
  }

  /** One notification takes one occurrence and one count away, from one container. */
  lemma NotifyGroup(cfg: Config, s: State, v: VolumeId, c: ContainerId)
    requires Domains(cfg, s) && c in cfg.specs && Enabled(cfg, s, Notify(v))
    requires VolInv(cfg, s, v) && GroupOk(cfg, s, c)
    ensures Domains(cfg, NotifyHead(s, v)) && GroupOk(cfg, NotifyHead(s, v), c)
  {
    NotifySites(cfg, s, v, c);
    assert Processed(cfg, NotifyHead(s, v), c) == Processed(cfg, s, c);
  }

  lemma NotifyContainer(cfg: Config, s: State, v: VolumeId, c: ContainerId)
    requires Domains(cfg, s) && c in cfg.specs && Enabled(cfg, s, Notify(v))
    requires VolInv(cfg, s, v) && CtrInv(cfg, s, c)
    ensures Domains(cfg, NotifyHead(s, v)) && CtrInv(cfg, NotifyHead(s, v), c)
  {
    var s' := NotifyHead(s, v);
    NotifyGroup(cfg, s, v, c);
    forall w | w in s.vols && Accounted(s, c, w) ensures Accounted(s', c, w) { NotifyAccounted(cfg, s, v, c, w); }
  }

  lemma NotifyQueue(cfg: Config, s: State, v: VolumeId)
    requires Domains(cfg, s) && Enabled(cfg, s, Notify(v)) && VolInv(cfg, s, v)
    requires Domains(cfg, NotifyHead(s, v)) && ProcessedGrows(cfg, s, NotifyHead(s, v))
    ensures VolInv(cfg, NotifyHead(s, v), v)
  {
    assert forall c :: c in NotifyHead(s, v).vols[v].subscribers ==> c in s.vols[v].subscribers;
  }

  lemma NotifyCore(cfg: Config, s: State, v: VolumeId)
    requires CoreInv(cfg, s) && Enabled(cfg, s, Notify(v))
    ensures CoreInv(cfg, NotifyHead(s, v))
  {
    var s' := NotifyHead(s, v);
    assert VolInv(cfg, s, v);
    forall c | c in cfg.specs
      ensures CtrInv(cfg, s', c) && Processed(cfg, s, c) <= Processed(cfg, s', c)
    {
      assert CtrInv(cfg, s, c);
      NotifyContainer(cfg, s, v, c);
    }
    forall u | u in cfg.volumes ensures VolInv(cfg, s', u) {
      assert VolInv(cfg, s, u);
      if u != v { FrameVolume(cfg, s, s', u); } else { NotifyQueue(cfg, s, v); }
    }
  }

  /** `s'` is `s` with the wait group of `c` appended to the queue of `v`. */
  ghost predicate Enqueued(s: State, s': State, c: ContainerId, v: VolumeId, pc: CtrPc) {
    && v in s.vols && c in s.groups
    && s'.vols == s.vols[v := s.vols[v].(subscribers := s.vols[v].subscribers + [c])]
    && s'.groups == s.groups[c := s.groups[c].(counter := s.groups[c].counter + 1)]
    && s'.ctrPc == s.ctrPc[c := pc]
    && s'.volPc == s.volPc && s'.outPc == s.outPc
  }

  lemma EnqueueAccounted(s: State, s': State, c: ContainerId, v: VolumeId, pc: CtrPc, d: ContainerId, w: VolumeId)
    requires Enqueued(s, s', c, v, pc) && d in s.groups && d in s'.groups && w in s.vols && w in s'.vols
    requires Accounted(s, d, w)
    ensures Accounted(s', d, w)
  {
  }

  lemma EnqueueSites(s: State, s': State, c: ContainerId, v: VolumeId, pc: CtrPc, d: ContainerId)
    requires Enqueued(s, s', c, v, pc) && c !in s.vols[v].subscribers
    ensures Sites(s', d) == if d == c then Sites(s, d) + {v} else Sites(s, d)
    ensures v !in Sites(s, c)
  {
    assert forall e :: e in s'.vols[v].subscribers <==> e in s.vols[v].subscribers || e == c;
  }

  lemma EnqueueGroup(cfg: Config, s: State, s': State, c: ContainerId, v: VolumeId, pc: CtrPc, d: ContainerId)
    requires Domains(cfg, s) && Domains(cfg, s') && c in cfg.specs && d in cfg.specs
    requires GroupOk(cfg, s, d)
    requires Enqueued(s, s', c, v, pc) && c !in s.vols[v].subscribers
    requires Processed(cfg, s, d) <= Processed(cfg, s', d)
    ensures GroupOk(cfg, s', d)
  {
    EnqueueSites(s, s', c, v, pc, d);
  }

  lemma EnqueueContainer(cfg: Config, s: State, s': State, c: ContainerId, v: VolumeId, pc: CtrPc, d: ContainerId)
    requires Domains(cfg, s) && Domains(cfg, s') && c in cfg.specs && d in cfg.specs
    requires CtrInv(cfg, s, d)
    requires Enqueued(s, s', c, v, pc) && c !in s.vols[v].subscribers
    requires Processed(cfg, s, c) <= Processed(cfg, s', c)
    ensures GroupOk(cfg, s', d)
    ensures d != c ==> CtrOk(cfg, s', d)
  {
    if d != c {
      assert Processed(cfg, s', d) == Processed(cfg, s, d);
      forall w | w in s.vols && Accounted(s, d, w) ensures Accounted(s', d, w) {
        EnqueueAccounted(s, s', c, v, pc, d, w);
      }
    }
    EnqueueGroup(cfg, s, s', c, v, pc, d);
  }

  lemma NoDupMore<T>(xs: seq<T>, x: T)
    requires NoDup(xs) && x !in xs
    ensures NoDup(xs + [x])
  {
  }

  lemma EnqueueQueue(cfg: Config, s: State, s': State, c: ContainerId, v: VolumeId, pc: CtrPc)
    requires Domains(cfg, s) && Domains(cfg, s') && c in cfg.specs && v in cfg.volumes && VolInv(cfg, s, v)
    requires Enqueued(s, s', c, v, pc) && c !in s.vols[v].subscribers
    requires ProcessedGrows(cfg, s, s') && v in Processed(cfg, s', c)
    requires s.vols[v].status == Created || s.vols[v].status == Inserting
    ensures VolInv(cfg, s', v)
  {
    var subs := s.vols[v].subscribers;
    NoDupMore(subs, c);
    assert s'.vols[v] == Volume(s.vols[v].status, subs + [c]) && s'.volPc[v] == s.volPc[v] && Out(s', v) == Out(s, v);
    assert StatusOk(cfg, s', v);
    assert QueueRel(s'.vols[v].status, s'.volPc[v], Out(s', v), false);
    forall d | d in subs + [c] ensures d in cfg.specs && v in Processed(cfg, s', d) {
      if d != c { assert d in subs; }
    }
  }

  lemma EnqueueContainers(cfg: Config, s: State, s': State, c: ContainerId, v: VolumeId, pc: CtrPc)
    requires CoreInv(cfg, s) && Domains(cfg, s') && c in cfg.specs
    requires Enqueued(s, s', c, v, pc) && c !in s.vols[v].subscribers
    requires Processed(cfg, s, c) <= Processed(cfg, s', c) && CtrOk(cfg, s', c)
    ensures forall d :: d in cfg.specs ==> CtrInv(cfg, s', d)
    ensures ProcessedGrows(cfg, s, s')
  {
    forall d | d in cfg.specs
      ensures CtrInv(cfg, s', d) && Processed(cfg, s, d) <= Processed(cfg, s', d)
    {
      assert CtrInv(cfg, s, d);
      EnqueueContainer(cfg, s, s', c, v, pc, d);
    }
  }

  lemma EnqueueCore(cfg: Config, s: State, s': State, c: ContainerId, v: VolumeId, pc: CtrPc)
    requires CoreInv(cfg, s) && Domains(cfg, s') && c in cfg.specs
    requires Enqueued(s, s', c, v, pc) && c !in s.vols[v].subscribers
    requires Processed(cfg, s, c) <= Processed(cfg, s', c) && v in Processed(cfg, s', c)
    requires s.vols[v].status == Created || s.vols[v].status == Inserting
    requires !Locked(s, v) && CtrOk(cfg, s', c)
    ensures CoreInv(cfg, s')
  {
    EnqueueContainers(cfg, s, s', c, v, pc);
    forall u | u in cfg.volumes ensures VolInv(cfg, s', u) {
      assert VolInv(cfg, s, u);
      if u != v { FrameVolume(cfg, s, s', u); } else { EnqueueQueue(cfg, s, s', c, v, pc); }
    }
  }

  lemma SeenGrows(cfg: Config, c: ContainerId, k: nat)
    requires c in cfg.specs && k < |cfg.specs[c]|
    ensures (set w | w in cfg.specs[c][..k + 1] && w in cfg.volumes) ==
            (set w | w in cfg.specs[c][..k] && w in cfg.volumes)
            + (if cfg.specs[c][k] in cfg.volumes then {cfg.specs[c][k]} else {})
  {
    assert cfg.specs[c][..k + 1] == cfg.specs[c][..k] + [cfg.specs[c][k]];
  }

  /** The container has passed `v` as well, which now stands in its queue. */
  lemma EnqueuedCtrOk(cfg: Config, s: State, s': State, c: ContainerId, v: VolumeId, k: nat, seen: set<VolumeId>)
    requires Domains(cfg, s) && Domains(cfg, s') && c in cfg.specs && CtrOk(cfg, s, c)
    requires s.ctrPc[c] == CSubscribe(k, seen) && k < |cfg.specs[c]| && cfg.specs[c][k] == v && v in cfg.volumes
    requires Enqueued(s, s', c, v, CSubscribe(k + 1, seen + {v})) && cfg.volumes[v] != Error
    ensures CtrOk(cfg, s', c)
  {
    SeenGrows(cfg, c, k);
    forall w | w in seen ensures Accounted(s', c, w) {
      EnqueueAccounted(s, s', c, v, CSubscribe(k + 1, seen + {v}), c, w);
    }
  }

  lemma SubscribeQueued(cfg: Config, s: State, c: ContainerId, v: VolumeId)
    requires CoreInv(cfg, s) && Enabled(cfg, s, Subscribe(c))
    requires FreshName(cfg, s, c) && v == cfg.specs[c][s.ctrPc[c].next]
    requires SubscribeOutcome(s.vols[v].status) == Queued
    ensures CoreInv(cfg, SubscribeNext(cfg, s, c))
  {
    var s' := SubscribeNext(cfg, s, c);
    var CSubscribe(k, seen) := s.ctrPc[c];
    assert CtrInv(cfg, s, c) && VolInv(cfg, s, v);
    assert c !in s.vols[v].subscribers;
    var pc := CSubscribe(k + 1, seen + {v});
    assert Enqueued(s, s', c, v, pc) && Domains(cfg, s');
    EnqueuedCtrOk(cfg, s, s', c, v, k, seen);
    EnqueueCore(cfg, s, s', c, v, pc);
  }

  /** The container goes on with `seen`, after a repeat, a foreign name or an inserted volume. */
  lemma SubscribeOn(cfg: Config, s: State, c: ContainerId, seen: set<VolumeId>)
    requires CoreInv(cfg, s) && c in cfg.specs && s.ctrPc[c].CSubscribe?
    requires s.ctrPc[c].next < |cfg.specs[c]| && s.ctrPc[c].seen <= seen
    requires seen == (set w | w in cfg.specs[c][..s.ctrPc[c].next + 1] && w in cfg.volumes)
    requires Covered(cfg, s, c, seen)
    ensures CoreInv(cfg, s.(ctrPc := s.ctrPc[c := CSubscribe(s.ctrPc[c].next + 1, seen)]))
  {
    var s' := s.(ctrPc := s.ctrPc[c := CSubscribe(s.ctrPc[c].next + 1, seen)]);
    assert forall w :: w in seen ==> Accounted(s', c, w) == Accounted(s, c, w);
    assert Covered(cfg, s', c, seen);
    CtrOnly(cfg, s, s', c);
  }

  lemma SubscribeRefused(cfg: Config, s: State, c: ContainerId)
    requires CoreInv(cfg, s) && c in cfg.specs && s.ctrPc[c].CSubscribe?
    ensures CoreInv(cfg, s.(ctrPc := s.ctrPc[c := CReport(true)]))
  {
    var s' := s.(ctrPc := s.ctrPc[c := CReport(true)]);
    assert CtrInv(cfg, s, c);
    CtrOnly(cfg, s, s', c);
  }

  lemma SubscribeReady(cfg: Config, s: State, c: ContainerId, v: VolumeId)
    requires CoreInv(cfg, s) && Enabled(cfg, s, Subscribe(c))
    requires FreshName(cfg, s, c) && v == cfg.specs[c][s.ctrPc[c].next] && s.vols[v].status == Inserted
    ensures CoreInv(cfg, SubscribeNext(cfg, s, c))
  {
    assert CtrInv(cfg, s, c) && VolInv(cfg, s, v);
    SeenGrows(cfg, c, s.ctrPc[c].next);
    SubscribeOn(cfg, s, c, s.ctrPc[c].seen + {v});
  }

  lemma SubscribeAgain(cfg: Config, s: State, c: ContainerId)
    requires CoreInv(cfg, s) && Enabled(cfg, s, Subscribe(c)) && !FreshName(cfg, s, c)
    ensures CoreInv(cfg, SubscribeNext(cfg, s, c))
  {
    assert CtrInv(cfg, s, c);
    SeenGrows(cfg, c, s.ctrPc[c].next);
    SubscribeOn(cfg, s, c, s.ctrPc[c].seen);
  }

  lemma SubscribeCore(cfg: Config, s: State, c: ContainerId)
    requires CoreInv(cfg, s) && Enabled(cfg, s, Subscribe(c))
    ensures CoreInv(cfg, SubscribeNext(cfg, s, c))
  {
    if !FreshName(cfg, s, c) {
      SubscribeAgain(cfg, s, c);
    } else {
      var v := cfg.specs[c][s.ctrPc[c].next];
      match SubscribeOutcome(s.vols[v].status)
      case Ready => SubscribeReady(cfg, s, c, v);
      case Refused => SubscribeRefused(cfg, s, c);
      case Queued => SubscribeQueued(cfg, s, c, v);
    }
  }

  lemma NoSite(s: State, c: ContainerId)
    requires Sites(s, c) == {}
    ensures forall v :: v in s.vols ==> c !in s.vols[v].subscribers
  {
    assert forall v :: v in s.vols && c in s.vols[v].subscribers ==> v in Sites(s, c);
  }

  /** `Wake` is where a zero counter and no error give every named volume inserted. */
  lemma CtrLocalOk(cfg: Config, s: State, s': State, c: ContainerId, act: CtrAct)
    requires Domains(cfg, s) && Domains(cfg, s') && c in cfg.specs && CtrInv(cfg, s, c)
    requires CtrCan(s.ctrPc[c], act, |cfg.specs[c]|, s.groups[c].counter)
    requires s'.vols == s.vols && s'.groups == s.groups
    requires s'.ctrPc[c] == CtrMove(act, Named(cfg, c) != {}, s.groups[c].errs != [])
    ensures CtrOk(cfg, s', c) && Processed(cfg, s, c) <= Processed(cfg, s', c)
  {
    if act.Subscribed? {
      assert cfg.specs[c][..s.ctrPc[c].next] == cfg.specs[c];
    }
    if act.Wake? {
      NoSite(s, c);
    }
    assert forall w :: w in s.vols && Accounted(s, c, w) ==> Accounted(s', c, w);
  }

  lemma CtrLocalCore(cfg: Config, s: State, c: ContainerId, act: CtrAct)
    requires CoreInv(cfg, s) && Enabled(cfg, s, CtrLocal(c, act))
    ensures CoreInv(cfg, Apply(cfg, s, CtrLocal(c, act)))
  {
    var s' := Apply(cfg, s, CtrLocal(c, act));
    assert CtrInv(cfg, s, c);
    CtrLocalOk(cfg, s, s', c, act);
    CtrOnly(cfg, s, s', c);
  }

  lemma CtrSendCore(cfg: Config, s: State, c: ContainerId)
    requires CoreInv(cfg, s) && Enabled(cfg, s, CtrSend(c))
    ensures CoreInv(cfg, Apply(cfg, s, CtrSend(c)))
  {
    assert CtrInv(cfg, s, c);
    CtrOnly(cfg, s, Apply(cfg, s, CtrSend(c)), c);
  }

  /** Joining and the other tasks touch no volume and no wait group. */
  lemma QuietCore(cfg: Config, s: State, s': State)
    requires CoreInv(cfg, s) && Domains(cfg, s')
    requires s'.vols == s.vols && s'.volPc == s.volPc && s'.outPc == s.outPc
    requires s'.groups == s.groups && s'.ctrPc == s.ctrPc
    ensures CoreInv(cfg, s')
  {
    assert Steady(s, s') && ProcessedGrows(cfg, s, s');
    forall d | d in cfg.specs ensures CtrInv(cfg, s', d) {
      FrameContainer(cfg, s, s', d);
    }
    forall u | u in cfg.volumes ensures VolInv(cfg, s', u) {
      FrameVolume(cfg, s, s', u);
    }
  }

  lemma SpawnVolCore(cfg: Config, s: State, s': State, v: VolumeId)
    requires CoreInv(cfg, s) && v in cfg.volumes && s.volPc[v].VUnspawned?
    requires s'.vols == s.vols && s'.volPc == s.volPc[v := VTransit] && s'.outPc == s.outPc
    requires s'.groups == s.groups && s'.ctrPc == s.ctrPc && s'.auxPc == s.auxPc
    ensures CoreInv(cfg, s')
  {
    assert VolInv(cfg, s, v);
    VolOnly(cfg, s, s', v);
  }

  lemma SpawnCtrCore(cfg: Config, s: State, s': State, c: ContainerId)
    requires CoreInv(cfg, s) && c in cfg.specs && s.ctrPc[c].CUnspawned?
    requires s'.vols == s.vols && s'.volPc == s.volPc && s'.outPc == s.outPc && s'.groups == s.groups
    requires s'.ctrPc == s.ctrPc[c := CSubscribe(0, {})] && s'.auxPc == s.auxPc
    ensures CoreInv(cfg, s')
  {
    CtrOnly(cfg, s, s', c);
  }

  lemma SpawnCore(cfg: Config, s: State)
    requires ValidConfig(cfg) && Inv(cfg, s) && Enabled(cfg, s, Spawn)
    ensures CoreInv(cfg, Apply(cfg, s, Spawn))
  {
    var s' := Apply(cfg, s, Spawn);
    var t := cfg.order[s.main.next];
    assert IsTask(cfg, t);
    assert t !in cfg.order[..s.main.next];
    assert JoinedOk(cfg, s, t);
    match t
    case VolTask(v) => SpawnVolCore(cfg, s, s', v);
    case CtrTask(c) => SpawnCtrCore(cfg, s, s', c);
    case AuxTask(_) => QuietCore(cfg, s, s');
  }

  lemma StepCore(cfg: Config, s: State, st: Step)
    requires ValidConfig(cfg) && Inv(cfg, s) && Enabled(cfg, s, st)
    ensures CoreInv(cfg, Apply(cfg, s, st))
  {
    if st.VolLocal? {
      VolLocalCore(cfg, s, st.v, st.vact);
    } else if st.OutLocal? {
      OutLocalCore(cfg, s, st.v, st.vact);
    } else if st.VolSend? {
      VolSendCore(cfg, s, st.v);
    } else if st.CtrLocal? {
      CtrLocalCore(cfg, s, st.c, st.cact);
    } else if st.CtrSend? {
      CtrSendCore(cfg, s, st.c);
    } else if st.Notify? {
      NotifyCore(cfg, s, st.v);
    } else if st.Subscribe? {
      SubscribeCore(cfg, s, st.c);
    } else if st.Spawn? {
      SpawnCore(cfg, s);
    } else {
      QuietCore(cfg, s, Apply(cfg, s, st));
    }
  }

  /** No task changed its phase, and the future set was not touched. */
  ghost predicate SamePhases(cfg: Config, s: State, s': State)
    requires Domains(cfg, s) && Domains(cfg, s')
  {
    && s'.chan == s.chan && s'.waitList == s.waitList && s'.failed == s.failed && s'.main == s.main
    && (forall v :: v in cfg.volumes ==> VolPhase(s'.volPc[v]) == VolPhase(s.volPc[v]))
    && (forall c :: c in cfg.specs ==> CtrPhase(s'.ctrPc[c]) == CtrPhase(s.ctrPc[c]))
    && (forall a :: a in cfg.aux ==> AuxPhase(s'.auxPc[a]) == AuxPhase(s.auxPc[a]))
  }

  lemma SameJoin(cfg: Config, s: State, s': State)
    requires Domains(cfg, s) && Domains(cfg, s') && JoinOk(cfg, s) && SamePhases(cfg, s, s')
    ensures JoinOk(cfg, s')
  {
    forall t | IsTask(cfg, t) ensures PhaseOf(cfg, s', t) == PhaseOf(cfg, s, t) && JoinedOk(cfg, s', t) {
      assert JoinedOk(cfg, s, t);
    }
  }

  predicate InnerStep(st: Step) {
    st.VolLocal? || st.OutLocal? || st.Notify? || st.Subscribe? || st.CtrLocal? || st.AuxRun?
  }

  lemma VolumePhases(cfg: Config, s: State, st: Step)
    requires Domains(cfg, s) && Enabled(cfg, s, st) && (st.VolLocal? || st.OutLocal? || st.Notify?)
    requires Domains(cfg, Apply(cfg, s, st))
    ensures SamePhases(cfg, s, Apply(cfg, s, st))
  {
    var s' := Apply(cfg, s, st);
    assert s'.ctrPc == s.ctrPc && s'.auxPc == s.auxPc;
    if st.VolLocal? {
      assert VolPhase(VolMove(s.vols[st.v].status, s.volPc[st.v], st.vact).1) == Running;
    } else {
      assert s'.volPc == s.volPc;
    }
  }

  lemma SubscribePhases(cfg: Config, s: State, c: ContainerId)
    requires Domains(cfg, s) && Enabled(cfg, s, Subscribe(c)) && Domains(cfg, SubscribeNext(cfg, s, c))
    ensures SamePhases(cfg, s, SubscribeNext(cfg, s, c))
  {
    var s' := SubscribeNext(cfg, s, c);
    assert s'.volPc == s.volPc && s'.auxPc == s.auxPc && s'.ctrPc == s.ctrPc[c := s'.ctrPc[c]];
    assert CtrPhase(s'.ctrPc[c]) == Running;
  }

  lemma CtrLocalPhases(cfg: Config, s: State, c: ContainerId, act: CtrAct)
    requires Domains(cfg, s) && Enabled(cfg, s, CtrLocal(c, act)) && Domains(cfg, Apply(cfg, s, CtrLocal(c, act)))
    ensures SamePhases(cfg, s, Apply(cfg, s, CtrLocal(c, act)))
  {
    var s' := Apply(cfg, s, CtrLocal(c, act));
    assert s'.volPc == s.volPc && s'.auxPc == s.auxPc;
    assert CtrPhase(s'.ctrPc[c]) == Running;
  }

  lemma InnerPhases(cfg: Config, s: State, st: Step)
    requires Domains(cfg, s) && Enabled(cfg, s, st) && InnerStep(st) && Domains(cfg, Apply(cfg, s, st))
    ensures SamePhases(cfg, s, Apply(cfg, s, st))
  {
    if st.VolLocal? || st.OutLocal? || st.Notify? {
      VolumePhases(cfg, s, st);
    } else if st.Subscribe? {
      SubscribePhases(cfg, s, st.c);
    } else if st.CtrLocal? {
      CtrLocalPhases(cfg, s, st.c, st.cact);
    } else {
      var s' := Apply(cfg, s, st);
      assert s'.volPc == s.volPc && s'.ctrPc == s.ctrPc;
    }
  }

  /** `a` alone moved, from running to ended, and put its result into the empty channel. */
  lemma SendJoin(cfg: Config, s: State, s': State, a: TaskId, err: bool)
    requires Domains(cfg, s) && JoinOk(cfg, s) && Domains(cfg, s') && IsTask(cfg, a)
    requires PhaseOf(cfg, s, a) == Running && PhaseOf(cfg, s', a) == Ended(err)
    requires forall t :: IsTask(cfg, t) && t != a ==> PhaseOf(cfg, s', t) == PhaseOf(cfg, s, t)
    requires s.chan == [] && s'.chan == [Msg(a, err)]
    requires s'.waitList == s.waitList && s'.failed == s.failed && s'.main == s.main
    ensures JoinOk(cfg, s')
  {
    assert JoinedOk(cfg, s, a);
    forall t | IsTask(cfg, t) ensures JoinedOk(cfg, s', t) {
      assert JoinedOk(cfg, s, t);
    }
  }

  lemma SpawnPhases(cfg: Config, s: State, t: TaskId)
    requires ValidConfig(cfg) && Domains(cfg, s) && Enabled(cfg, s, Spawn) && Domains(cfg, Apply(cfg, s, Spawn))
    requires IsTask(cfg, t)
    ensures PhaseOf(cfg, Apply(cfg, s, Spawn), t) == if t == cfg.order[s.main.next] then Running else PhaseOf(cfg, s, t)
  {
  }

  lemma SpawnJoined(cfg: Config, s: State, t: TaskId)
    requires ValidConfig(cfg) && Domains(cfg, s) && Enabled(cfg, s, Spawn) && Domains(cfg, Apply(cfg, s, Spawn))
    requires IsTask(cfg, t) && JoinedOk(cfg, s, t)
    ensures JoinedOk(cfg, Apply(cfg, s, Spawn), t)
  {
    var k := s.main.next;
    var a := cfg.order[k];
    assert cfg.order[..k + 1] == cfg.order[..k] + [a];
    assert a !in cfg.order[..k];
    assert t in cfg.order[..k + 1] <==> t == a || t in cfg.order[..k];
    SpawnPhases(cfg, s, t);
  }

  lemma SpawnJoin(cfg: Config, s: State)
    requires ValidConfig(cfg) && Inv(cfg, s) && Enabled(cfg, s, Spawn) && Domains(cfg, Apply(cfg, s, Spawn))
    ensures JoinOk(cfg, Apply(cfg, s, Spawn))
  {
    var a := cfg.order[s.main.next];
    assert IsTask(cfg, a) && JoinedOk(cfg, s, a) && a !in cfg.order[..s.main.next];
    forall t | IsTask(cfg, t) ensures JoinedOk(cfg, Apply(cfg, s, Spawn), t) {
      assert JoinedOk(cfg, s, t);
      SpawnJoined(cfg, s, t);
    }
    if s.chan != [] { SpawnPhases(cfg, s, s.chan[0].task); }
  }

  lemma MainJoin(cfg: Config, s: State, st: Step)
    requires Inv(cfg, s) && Enabled(cfg, s, st) && Domains(cfg, Apply(cfg, s, st))
    requires st.Receive? || st.Finish? || st.Timeout?
    ensures JoinOk(cfg, Apply(cfg, s, st))
  {
    var s' := Apply(cfg, s, st);
    forall t | IsTask(cfg, t)
      ensures PhaseOf(cfg, s', t) == PhaseOf(cfg, s, t) && JoinedOk(cfg, s', t)
    {
      assert JoinedOk(cfg, s, t);
    }
  }

  lemma StepJoin(cfg: Config, s: State, st: Step)
    requires ValidConfig(cfg) && Inv(cfg, s) && Enabled(cfg, s, st) && Domains(cfg, Apply(cfg, s, st))
    ensures JoinOk(cfg, Apply(cfg, s, st))
  {
    var s' := Apply(cfg, s, st);
    if InnerStep(st) {
      InnerPhases(cfg, s, st);
      SameJoin(cfg, s, s');
    } else if st.Spawn? {
      SpawnJoin(cfg, s);
    } else if st.VolSend? {
      SendJoin(cfg, s, s', VolTask(st.v), s.volPc[st.v].err);
    } else if st.CtrSend? {
      SendJoin(cfg, s, s', CtrTask(st.c), s.ctrPc[st.c].err);
    } else if st.AuxSend? {
      SendJoin(cfg, s, s', AuxTask(st.a), s.auxPc[st.a].err);
    } else {
      MainJoin(cfg, s, st);
    }
  }

  /** Every step keeps the invariant. */
  lemma StepInv(cfg: Config, s: State, st: Step)
    requires ValidConfig(cfg) && Inv(cfg, s) && Enabled(cfg, s, st)
    ensures Inv(cfg, Apply(cfg, s, st))
  {
    StepCore(cfg, s, st);
    StepJoin(cfg, s, st);
  }

  lemma {:induction false} ExecInv(cfg: Config, s: State, steps: seq<Step>)
    requires ValidConfig(cfg) && Inv(cfg, s)
    ensures Exec(cfg, s, steps).Some? ==> Inv(cfg, Exec(cfg, s, steps).value)
    decreases |steps|
  {
    if steps == [] || !Enabled(cfg, s, steps[0]) {
    } else {
      StepInv(cfg, s, steps[0]);
      ExecInv(cfg, Apply(cfg, s, steps[0]), steps[1..]);
    }
  }

  lemma ReachableInv(cfg: Config, s: State)
    requires ValidConfig(cfg) && Reachable(cfg, s)
    ensures Inv(cfg, s)
  {
    var steps :| Exec(cfg, Init(cfg), steps) == Some(s);
    InitInv(cfg);
    ExecInv(cfg, Init(cfg), steps);
  }
}
