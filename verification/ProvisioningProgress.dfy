/** When a provisioning batch is sure to finish. */
module ProvisioningProgress {
  import opened Basics
  import opened VolumeStates
  import opened Provisioning
  import opened ProvisioningSafety

  // ---- every schedule is finite ----

  function VolRank(pc: VolPc): nat {
    match pc
    case VUnspawned => 10 case VTransit => 9 case VMount => 8 case VInsert => 7
    case VSetInserted => 6 case VUmount => 6 case VSetFail => 5 case VNotify(_) => 4
    case VReport(_) => 2 case VDone(_) => 0
  }

  function CtrRank(pc: CtrPc, names: nat): nat {
    match pc
    case CUnspawned => 2 * names + 9
    case CSubscribe(k, _) => if k <= names then 2 * (names - k) + 8 else 8
    case CPrepare => 7 case CWait => 6 case CAdd => 5 case CReport(_) => 2 case CDone(_) => 0
  }

  function AuxRank(pc: AuxPc): nat {
    match pc
    case AUnspawned => 4 case ARun => 3 case AReport(_) => 2 case ADone(_) => 0
  }

  /** The steps a task can still take, and those it can still cause. */
  ghost function Rank(cfg: Config, s: State, t: TaskId): int {
    match t
    case VolTask(v) =>
      (if v in s.volPc then VolRank(s.volPc[v]) else 0) + if v in s.outPc then VolRank(s.outPc[v]) else 0
    case CtrTask(c) =>
      if c in s.ctrPc && c in s.groups && c in cfg.specs
      then CtrRank(s.ctrPc[c], |cfg.specs[c]|) + s.groups[c].counter else 0
    case AuxTask(a) => if a in s.auxPc then AuxRank(s.auxPc[a]) else 0
  }

  ghost function RankSum(cfg: Config, s: State, ts: seq<TaskId>): int {
    if ts == [] then 0 else Rank(cfg, s, ts[0]) + RankSum(cfg, s, ts[1..])
  }

  ghost function Measure(cfg: Config, s: State): int {
    RankSum(cfg, s, cfg.order) + |s.chan| + (if s.main.MSpawn? then |cfg.order| - s.main.next + 1 else 0)
  }

  lemma {:induction false} RankSumFrame(cfg: Config, s: State, s': State, ts: seq<TaskId>)
    requires forall t :: t in ts ==> Rank(cfg, s', t) == Rank(cfg, s, t)
    ensures RankSum(cfg, s', ts) == RankSum(cfg, s, ts)
  {
    if ts == [] {
    } else {
      assert ts[0] in ts;
      assert forall t :: t in ts[1..] ==> t in ts;
      RankSumFrame(cfg, s, s', ts[1..]);
    }
  }

  /** When one task moves, the sum moves by as much. */
  lemma {:induction false} RankSumOne(cfg: Config, s: State, s': State, ts: seq<TaskId>, a: TaskId)
    requires NoDup(ts) && a in ts
    requires forall t :: t in ts && t != a ==> Rank(cfg, s', t) == Rank(cfg, s, t)
    ensures RankSum(cfg, s', ts) - RankSum(cfg, s, ts) == Rank(cfg, s', a) - Rank(cfg, s, a)
  {
    assert ts[0] in ts;
    assert ts == [ts[0]] + ts[1..];
    assert forall t :: t in ts[1..] ==> t in ts;
    if ts[0] == a {
      assert a !in ts[1..];
      RankSumFrame(cfg, s, s', ts[1..]);
    } else {
      RankSumOne(cfg, s, s', ts[1..], a);
    }
  }

  /** The task whose rank a step changes. */
  ghost function Mover(cfg: Config, s: State, st: Step): TaskId
    requires Enabled(cfg, s, st) && !st.Receive? && !st.Finish? && !st.Timeout?
  {
    match st
    case Spawn => cfg.order[s.main.next]
    case VolLocal(v, _) => VolTask(v)
    case OutLocal(v, _) => VolTask(v)
    case Notify(v) => CtrTask(s.vols[v].subscribers[0])
    case VolSend(v) => VolTask(v)
    case Subscribe(c) => CtrTask(c)
    case CtrLocal(c, _) => CtrTask(c)
    case CtrSend(c) => CtrTask(c)
    case AuxRun(a, _) => AuxTask(a)
    case AuxSend(a) => AuxTask(a)
  }

  lemma SubscribeRank(cfg: Config, s: State, c: ContainerId)
    requires Domains(cfg, s) && Enabled(cfg, s, Subscribe(c)) && CtrInv(cfg, s, c)
    ensures Rank(cfg, SubscribeNext(cfg, s, c), CtrTask(c)) < Rank(cfg, s, CtrTask(c))
    ensures SubscribeNext(cfg, s, c).chan == s.chan
  {
  }

  lemma SpawnRank(cfg: Config, s: State)
    requires ValidConfig(cfg) && Inv(cfg, s) && Enabled(cfg, s, Spawn)
    ensures var a := cfg.order[s.main.next];
            IsTask(cfg, a) && Rank(cfg, Apply(cfg, s, Spawn), a) < Rank(cfg, s, a)
  {
    var a := cfg.order[s.main.next];
    assert IsTask(cfg, a) && JoinedOk(cfg, s, a);
    assert a !in cfg.order[..s.main.next];
  }

  lemma VolMoverRank(cfg: Config, s: State, st: Step)
    requires Domains(cfg, s) && Enabled(cfg, s, st) && (st.VolLocal? || st.OutLocal? || st.VolSend?)
    ensures var s', a := Apply(cfg, s, st), VolTask(st.v);
            st.v in cfg.volumes && Rank(cfg, s', a) + (|s'.chan| - |s.chan|) < Rank(cfg, s, a)
  {
    var v := st.v;
    match st
    case VolLocal(_, act) => assert VolRank(VolMove(s.vols[v].status, s.volPc[v], act).1) < VolRank(s.volPc[v]);
    case OutLocal(_, act) => assert VolRank(VolMove(s.vols[v].status, s.outPc[v], act).1) < VolRank(s.outPc[v]);
    case VolSend(_) =>
  }

  lemma NotifyRank(cfg: Config, s: State, v: VolumeId)
    requires Domains(cfg, s) && Enabled(cfg, s, Notify(v)) && VolInv(cfg, s, v)
    ensures var c := s.vols[v].subscribers[0];
            c in cfg.specs && Rank(cfg, NotifyHead(s, v), CtrTask(c)) < Rank(cfg, s, CtrTask(c))
  {
  }

  lemma CtrMoverRank(cfg: Config, s: State, st: Step)
    requires Domains(cfg, s) && Enabled(cfg, s, st) && IsContainerStep(st) && CtrInv(cfg, s, st.c)
    ensures var s', a := Apply(cfg, s, st), CtrTask(st.c);
            Rank(cfg, s', a) + (|s'.chan| - |s.chan|) < Rank(cfg, s, a)
  {
    if st.Subscribe? { SubscribeRank(cfg, s, st.c); }
  }

  lemma MoverRank(cfg: Config, s: State, st: Step)
    requires ValidConfig(cfg) && Inv(cfg, s) && Enabled(cfg, s, st)
    requires !st.Receive? && !st.Finish? && !st.Timeout?
    ensures var s', a := Apply(cfg, s, st), Mover(cfg, s, st);
            && IsTask(cfg, a)
            && Rank(cfg, s', a) + (|s'.chan| - |s.chan|) < Rank(cfg, s, a)
  {
    if st.Spawn? {
      SpawnRank(cfg, s);
    } else if st.VolLocal? || st.OutLocal? || st.VolSend? {
      VolMoverRank(cfg, s, st);
    } else if st.Notify? {
      assert VolInv(cfg, s, st.v);
      NotifyRank(cfg, s, st.v);
    } else if IsContainerStep(st) {
      assert CtrInv(cfg, s, st.c);
      CtrMoverRank(cfg, s, st);
    }
  }

  predicate IsContainerStep(st: Step) {
    st.CtrLocal? || st.CtrSend? || st.Subscribe?
  }

  lemma OtherRankSubscribe(cfg: Config, s: State, c: ContainerId, t: TaskId)
    requires Domains(cfg, s) && Enabled(cfg, s, Subscribe(c)) && t != CtrTask(c)
    ensures Rank(cfg, SubscribeNext(cfg, s, c), t) == Rank(cfg, s, t)
  {
    var s' := SubscribeNext(cfg, s, c);
    assert s'.volPc == s.volPc && s'.outPc == s.outPc && s'.auxPc == s.auxPc;
  }

  lemma OtherRankContainer(cfg: Config, s: State, st: Step, t: TaskId)
    requires Domains(cfg, s) && Enabled(cfg, s, st) && (st.CtrLocal? || st.CtrSend?) && t != CtrTask(st.c)
    ensures Rank(cfg, Apply(cfg, s, st), t) == Rank(cfg, s, t)
  {
    var s' := Apply(cfg, s, st);
    assert s'.volPc == s.volPc && s'.outPc == s.outPc && s'.auxPc == s.auxPc && s'.groups == s.groups;
  }

  lemma OtherRankVolume(cfg: Config, s: State, st: Step, t: TaskId)
    requires Domains(cfg, s) && Enabled(cfg, s, st) && (st.VolLocal? || st.OutLocal? || st.VolSend?) && t != VolTask(st.v)
    ensures Rank(cfg, Apply(cfg, s, st), t) == Rank(cfg, s, t)
  {
    var s' := Apply(cfg, s, st);
    assert s'.ctrPc == s.ctrPc && s'.groups == s.groups && s'.auxPc == s.auxPc;
    assert forall u :: u in s.volPc && u != st.v ==> s'.volPc[u] == s.volPc[u];
    assert forall u :: u in s.outPc && u != st.v ==> s'.outPc[u] == s.outPc[u];
  }

  lemma OtherRankSpawn(cfg: Config, s: State, t: TaskId)
    requires Domains(cfg, s) && Enabled(cfg, s, Spawn) && t != cfg.order[s.main.next]
    ensures Rank(cfg, Apply(cfg, s, Spawn), t) == Rank(cfg, s, t)
  {
  }

  lemma OtherRankNotify(cfg: Config, s: State, v: VolumeId, t: TaskId)
    requires Domains(cfg, s) && Enabled(cfg, s, Notify(v)) && t != CtrTask(s.vols[v].subscribers[0])
    ensures Rank(cfg, NotifyHead(s, v), t) == Rank(cfg, s, t)
  {
  }

  lemma OtherRank(cfg: Config, s: State, st: Step, t: TaskId)
    requires Domains(cfg, s) && Enabled(cfg, s, st)
    requires st.Receive? || st.Finish? || st.Timeout? || t != Mover(cfg, s, st)
    ensures Rank(cfg, Apply(cfg, s, st), t) == Rank(cfg, s, t)
  {
    if st.Subscribe? {
      OtherRankSubscribe(cfg, s, st.c, t);
    } else if st.CtrLocal? || st.CtrSend? {
      OtherRankContainer(cfg, s, st, t);
    } else if st.VolLocal? || st.OutLocal? || st.VolSend? {
      OtherRankVolume(cfg, s, st, t);
    } else if st.Spawn? {
      OtherRankSpawn(cfg, s, t);
    } else if st.Notify? {
      OtherRankNotify(cfg, s, st.v, t);
    }
  }

  /** Every step brings the batch strictly closer to its end. */
  lemma StepDecreases(cfg: Config, s: State, st: Step)
    requires ValidConfig(cfg) && Inv(cfg, s) && Enabled(cfg, s, st)
    ensures Measure(cfg, Apply(cfg, s, st)) < Measure(cfg, s)
  {
    var s' := Apply(cfg, s, st);
    forall t | st.Receive? || st.Finish? || st.Timeout? || t != Mover(cfg, s, st)
      ensures Rank(cfg, s', t) == Rank(cfg, s, t)
    {
      OtherRank(cfg, s, st, t);
    }
    if st.Receive? || st.Finish? || st.Timeout? {
      RankSumFrame(cfg, s, s', cfg.order);
    } else {
      MoverRank(cfg, s, st);
      assert s.main.MSpawn? <==> s'.main.MSpawn?;
      assert s.main.MSpawn? ==> s'.main.next >= s.main.next;
      RankSumOne(cfg, s, s', cfg.order, Mover(cfg, s, st));
    }
  }

  lemma {:induction false} RankSumNat(cfg: Config, s: State, ts: seq<TaskId>)
    requires Inv(cfg, s)
    ensures RankSum(cfg, s, ts) >= 0
  {
    if ts == [] {
    } else {
      if ts[0].CtrTask? && ts[0].c in cfg.specs {
        assert CtrInv(cfg, s, ts[0].c);
      }
      RankSumNat(cfg, s, ts[1..]);
    }
  }

  lemma {:induction false} ExecBound(cfg: Config, s: State, steps: seq<Step>)
    requires ValidConfig(cfg) && Inv(cfg, s) && Exec(cfg, s, steps).Some?
    ensures |steps| <= Measure(cfg, s)
    decreases |steps|
  {
    RankSumNat(cfg, s, cfg.order);
    if steps == [] {
    } else {
      StepInv(cfg, s, steps[0]);
      StepDecreases(cfg, s, steps[0]);
      ExecBound(cfg, Apply(cfg, s, steps[0]), steps[1..]);
    }
  }

  /** No schedule of a batch is longer than its measure. */
  lemma Terminates(cfg: Config, steps: seq<Step>)
    requires ValidConfig(cfg) && Exec(cfg, Init(cfg), steps).Some?
    ensures |steps| <= Measure(cfg, Init(cfg))
  {
    InitInv(cfg);
    ExecBound(cfg, Init(cfg), steps);
  }

  // ---- the batches that cannot get stuck ----

  /** The future set still waits, and only its timeout can move the batch. */
  ghost predicate Stuck(cfg: Config, s: State) {
    s.main.MSpawn? && forall st :: Enabled(cfg, s, st) ==> st == Timeout
  }

  /**
   A volume that may end its task without notifying late subscribers: it was INSERTING when
   the batch began, with nobody left who inserts it, or its insert, by the batch or outside,
   may fail after its mount succeeded (`umount` then makes it CREATED again).
   */
  predicate Treacherous(cfg: Config, v: VolumeId) {
    && v in cfg.volumes
    && ((cfg.volumes[v] == Inserting && v !in cfg.outside) ||
        (v in cfg.flaky && (cfg.volumes[v] == Created || v in cfg.outside)))
  }

  /** A container that may wait for such a volume; one that names an ERROR volume gives up first. */
  ghost predicate Risky(cfg: Config, c: ContainerId) {
    && c in cfg.specs
    && (exists v :: v in Named(cfg, c) && Treacherous(cfg, v))
    && (forall v :: v in Named(cfg, c) ==> cfg.volumes[v] != Error)
  }

  /** An unfinished volume task can always move. */
  lemma VolCanMove(cfg: Config, s: State, v: VolumeId) returns (st: Step)
    requires Inv(cfg, s) && v in cfg.volumes && s.chan == []
    requires !s.volPc[v].VUnspawned? && !s.volPc[v].VDone? && (v in cfg.outside ==> s.outPc[v].VReport?)
    ensures Enabled(cfg, s, st) && st != Timeout
  {
    match s.volPc[v]
    case VTransit => st := VolLocal(v, Transit);
    case VMount => st := VolLocal(v, Mount(true));
    case VInsert => st := VolLocal(v, Insert(true));
    case VSetInserted => st := VolLocal(v, SetInserted);
    case VUmount => st := VolLocal(v, Umount(true));
    case VSetFail => st := VolLocal(v, SetFail);
    case VNotify(_) => st := TellerCanMove(cfg, s, v);
    case VReport(_) => st := VolSend(v);
  }

  lemma TellerCanMove(cfg: Config, s: State, v: VolumeId) returns (st: Step)
    requires Inv(cfg, s) && v in cfg.volumes && Locked(s, v)
    ensures Enabled(cfg, s, st) && st != Timeout
  {
    assert VolInv(cfg, s, v);
    if s.vols[v].subscribers != [] {
      assert s.vols[v].subscribers[0] in s.vols[v].subscribers;
      st := Notify(v);
    } else {
      st := if s.volPc[v].VNotify? then VolLocal(v, Unlock) else OutLocal(v, Unlock);
    }
  }

  /** Until the outside inserter has notified everybody, it can move, or the batch's task can. */
  lemma OutCanMove(cfg: Config, s: State, v: VolumeId) returns (st: Step)
    requires Inv(cfg, s) && v in cfg.outside && !s.outPc[v].VReport?
    ensures Enabled(cfg, s, st) && st != Timeout
  {
    assert VolInv(cfg, s, v);
    if Locked(s, v) {
      st := TellerCanMove(cfg, s, v);
    } else {
      match s.outPc[v]
      case VMount => st := OutLocal(v, Mount(true));
      case VInsert => st := OutLocal(v, Insert(true));
      case VSetInserted => st := OutLocal(v, SetInserted);
      case VUmount => st := OutLocal(v, Umount(true));
      case VSetFail => st := OutLocal(v, SetFail);
    }
  }

  /** A container whose volumes have all ended can move, unless it is risky. */
  lemma CtrCanMove(cfg: Config, s: State, c: ContainerId) returns (st: Step)
    requires Inv(cfg, s) && c in cfg.specs && s.chan == [] && !Risky(cfg, c)
    requires !s.ctrPc[c].CUnspawned? && !s.ctrPc[c].CDone?
    requires forall v :: v in cfg.volumes ==> s.volPc[v].VDone?
    requires forall v :: v in cfg.outside ==> s.outPc[v].VReport?
    ensures Enabled(cfg, s, st) && st != Timeout
  {
    assert CtrInv(cfg, s, c);
    match s.ctrPc[c]
    case CSubscribe(k, _) => st := if k < |cfg.specs[c]| then Subscribe(c) else CtrLocal(c, Subscribed);
    case CPrepare => st := CtrLocal(c, Prepare(true));
    case CWait =>
      st := CtrLocal(c, Wake);
      if s.groups[c].counter != 0 {
        var v :| v in Sites(s, c);
        assert VolInv(cfg, s, v);
        assert v in Named(cfg, c) && Treacherous(cfg, v);
        assert false;
      }
    case CAdd => st := CtrLocal(c, AddContainer(true));
    case CReport(_) => st := CtrSend(c);
  }

  lemma AuxCanMove(cfg: Config, s: State, a: string) returns (st: Step)
    requires Inv(cfg, s) && a in cfg.aux && s.chan == []
    requires !s.auxPc[a].AUnspawned? && !s.auxPc[a].ADone?
    ensures Enabled(cfg, s, st) && st != Timeout
  {
    st := if s.auxPc[a].ARun? then AuxRun(a, true) else AuxSend(a);
  }

  lemma NotStuck(cfg: Config, s: State)
    requires ValidConfig(cfg) && Inv(cfg, s) && s.main.MSpawn?
    requires forall c :: !Risky(cfg, c)
    ensures !Stuck(cfg, s)
  {
    if s.main.next < |cfg.order| {
      assert Enabled(cfg, s, Spawn);
    } else if s.waitList == {} {
      assert Enabled(cfg, s, Finish);
    } else if s.chan != [] {
      assert Enabled(cfg, s, Receive);
    } else {
      assert cfg.order[..SpawnCount(cfg, s)] == cfg.order;
      forall t | IsTask(cfg, t) ensures PhaseOf(cfg, s, t) != Unspawned { assert JoinedOk(cfg, s, t); }
      if v :| v in cfg.outside && !s.outPc[v].VReport? {
        var st := OutCanMove(cfg, s, v);
      } else if v :| v in cfg.volumes && !s.volPc[v].VDone? {
        assert PhaseOf(cfg, s, VolTask(v)) != Unspawned;
        var st := VolCanMove(cfg, s, v);
      } else if c :| c in cfg.specs && !s.ctrPc[c].CDone? {
        assert PhaseOf(cfg, s, CtrTask(c)) != Unspawned;
        var st := CtrCanMove(cfg, s, c);
      } else {
        var t :| t in s.waitList;
        assert JoinedOk(cfg, s, t) && PhaseOf(cfg, s, t) != Unspawned;
        var st := AuxCanMove(cfg, s, t.a);
      }
    }
  }

  // ---- the batches that can ----

  lemma {:induction false} ExecConcat(cfg: Config, s: State, a: seq<Step>, b: seq<Step>)
    requires Exec(cfg, s, a).Some?
    ensures Exec(cfg, s, a + b) == Exec(cfg, Exec(cfg, s, a).value, b)
    decreases |a|
  {
    if a == [] {
      assert a + b == b;
    } else {
      assert (a + b)[0] == a[0] && (a + b)[1..] == a[1..] + b;
      ExecConcat(cfg, Apply(cfg, s, a[0]), a[1..], b);
    }
  }

  lemma ExecOne(cfg: Config, s: State, st: Step)
    requires Enabled(cfg, s, st)
    ensures Exec(cfg, s, [st]) == Some(Apply(cfg, s, st))
  {
    assert Exec(cfg, Apply(cfg, s, st), [st][1..]) == Some(Apply(cfg, s, st));
  }

  lemma ReachStep(cfg: Config, s: State, st: Step)
    requires Reachable(cfg, s) && Enabled(cfg, s, st)
    ensures Reachable(cfg, Apply(cfg, s, st))
  {
    var steps :| Exec(cfg, Init(cfg), steps) == Some(s);
    ExecConcat(cfg, Init(cfg), steps, [st]);
    ExecOne(cfg, s, st);
  }

  ghost predicate EarlyVol(cfg: Config, s: State, k: nat, v: VolumeId)
    requires Domains(cfg, s) && v in cfg.volumes && k <= |cfg.order|
  {
    && s.vols[v] == Volume(cfg.volumes[v], [])
    && s.volPc[v] == if VolTask(v) in cfg.order[..k] then VTransit else VUnspawned
  }

  ghost predicate EarlyCtr(cfg: Config, s: State, k: nat, c: ContainerId)
    requires Domains(cfg, s) && c in cfg.specs && k <= |cfg.order|
  {
    s.ctrPc[c] == if CtrTask(c) in cfg.order[..k] then CSubscribe(0, {}) else CUnspawned
  }

  /** Nothing has happened but spawning. */
  ghost predicate Early(cfg: Config, s: State) {
    && Domains(cfg, s)
    && s.main.MSpawn? && s.main.next <= |cfg.order|
    && (forall v :: v in cfg.outside ==> s.outPc[v] == VMount)
    && (forall v :: v in cfg.volumes ==> EarlyVol(cfg, s, s.main.next, v))
    && (forall c :: c in cfg.specs ==> EarlyCtr(cfg, s, s.main.next, c))
  }

  lemma OneMore(cfg: Config, k: nat, t: TaskId)
    requires k < |cfg.order|
    ensures t in cfg.order[..k + 1] <==> t in cfg.order[..k] || t == cfg.order[k]
  {
    assert cfg.order[..k + 1] == cfg.order[..k] + [cfg.order[k]];
  }

  lemma EarlyMore(cfg: Config, s: State, s': State, k: nat)
    requires Early(cfg, s) && s.main.next == k < |cfg.order| && Domains(cfg, s') && s'.main == MSpawn(k + 1)
    requires s'.vols == s.vols && s'.outPc == s.outPc
    requires forall v :: v in cfg.volumes ==> s'.volPc[v] == if cfg.order[k] == VolTask(v) then VTransit else s.volPc[v]
    requires forall c :: c in cfg.specs ==>
               s'.ctrPc[c] == if cfg.order[k] == CtrTask(c) then CSubscribe(0, {}) else s.ctrPc[c]
    ensures Early(cfg, s')
  {
    forall v | v in cfg.volumes ensures EarlyVol(cfg, s', k + 1, v) {
      assert EarlyVol(cfg, s, k, v);
      OneMore(cfg, k, VolTask(v));
    }
    forall c | c in cfg.specs ensures EarlyCtr(cfg, s', k + 1, c) {
      assert EarlyCtr(cfg, s, k, c);
      OneMore(cfg, k, CtrTask(c));
    }
  }

  lemma EarlySpawn(cfg: Config, s: State)
    requires ValidConfig(cfg) && Early(cfg, s) && s.main.next < |cfg.order|
    ensures Early(cfg, Apply(cfg, s, Spawn))
  {
    assert IsTask(cfg, cfg.order[s.main.next]);
    EarlyMore(cfg, s, Apply(cfg, s, Spawn), s.main.next);
  }

  lemma {:induction false} SpawnUpTo(cfg: Config, k: nat) returns (s: State)
    requires ValidConfig(cfg) && k <= |cfg.order|
    ensures Reachable(cfg, s) && Early(cfg, s) && s.main.next == k
  {
    if k == 0 {
      s := Init(cfg);
      assert Exec(cfg, s, []) == Some(s);
    } else {
      var s0 := SpawnUpTo(cfg, k - 1);
      ReachStep(cfg, s0, Spawn);
      EarlySpawn(cfg, s0);
      s := Apply(cfg, s0, Spawn);
    }
  }

  /** `v` has ended badly while every other task is about to begin. */
  ghost predicate Trap(cfg: Config, s: State, v: VolumeId) {
    && Domains(cfg, s) && v in cfg.volumes && Waiting(cfg, s)
    && s.volPc[v].VReport? && (v in cfg.outside ==> s.outPc[v].VReport?)
    && (s.vols[v].status == Created || s.vols[v].status == Inserting)
    && (forall u :: u in cfg.outside && u != v ==> s.outPc[u] == VMount)
    && (forall u :: u in cfg.volumes && u != v ==> s.vols[u].status == cfg.volumes[u] && s.volPc[u] == VTransit)
  }

  /** `s` differs from `s0` in the volume `v` and its task, and in nothing else but the joining. */
  ghost predicate OnlyAt(s0: State, s: State, v: VolumeId) {
    && v in s.vols && v in s.volPc && v in s0.vols && v in s0.volPc
    && s.vols == s0.vols[v := s.vols[v]] && s.volPc == s0.volPc[v := s.volPc[v]]
    && (if v in s0.outPc then v in s.outPc && s.outPc == s0.outPc[v := s.outPc[v]] else s.outPc == s0.outPc)
    && s.groups == s0.groups && s.ctrPc == s0.ctrPc && s.auxPc == s0.auxPc && s.main == s0.main
  }

  lemma VolStep(cfg: Config, base: State, s0: State, v: VolumeId, act: VolAct) returns (s: State)
    requires Reachable(cfg, s0) && OnlyAt(base, s0, v) && s0.vols[v].subscribers == []
    requires VolCan(s0.volPc[v], act, v in cfg.flaky, true) && (TakesLock(act) ==> !Locked(s0, v))
    ensures Reachable(cfg, s) && OnlyAt(base, s, v)
    ensures (s.vols[v].status, s.volPc[v]) == VolMove(s0.vols[v].status, s0.volPc[v], act)
    ensures s.vols[v].subscribers == [] && s.outPc == s0.outPc
  {
    ReachStep(cfg, s0, VolLocal(v, act));
    s := Apply(cfg, s0, VolLocal(v, act));
  }

  /** The run of `Volume.add` up to the insert, which fails. */
  lemma VolTries(cfg: Config, base: State, v: VolumeId) returns (s: State)
    requires Reachable(cfg, base) && VolAt(base, v) && v in cfg.flaky && v !in base.outPc
    requires base.vols[v] == Volume(Created, []) && base.volPc[v] == VTransit
    ensures Reachable(cfg, s) && OnlyAt(base, s, v) && VolAt(s, v)
    ensures s.vols[v] == Volume(Inserting, []) && s.volPc[v] == VUmount
  {
    s := VolStep(cfg, base, base, v, Transit);
    s := VolStep(cfg, base, s, v, Mount(true));
    s := VolStep(cfg, base, s, v, Insert(false));
  }

  lemma VolUmounts(cfg: Config, base: State, v: VolumeId) returns (s: State)
    requires Reachable(cfg, base) && VolAt(base, v) && v in cfg.flaky && v !in base.outPc
    requires base.vols[v] == Volume(Created, []) && base.volPc[v] == VTransit
    ensures Reachable(cfg, s) && OnlyAt(base, s, v)
    ensures s.vols[v] == Volume(Created, []) && s.volPc[v] == VSetFail
  {
    s := VolTries(cfg, base, v);
    s := VolStep(cfg, base, s, v, Umount(true));
  }

  /** The whole run of `Volume.add` whose insert fails: the volume ends CREATED, after its last notification. */
  lemma VolFails(cfg: Config, base: State, v: VolumeId) returns (s: State)
    requires Reachable(cfg, base) && VolAt(base, v) && v in cfg.flaky && v !in base.outPc
    requires base.vols[v] == Volume(Created, []) && base.volPc[v] == VTransit
    ensures Reachable(cfg, s) && OnlyAt(base, s, v)
    ensures s.vols[v] == Volume(Created, []) && s.volPc[v] == VReport(true)
  {
    s := VolUmounts(cfg, base, v);
    s := VolStep(cfg, base, s, v, SetFail);
    s := VolStep(cfg, base, s, v, Unlock);
  }

  lemma OutStep(cfg: Config, base: State, s0: State, v: VolumeId, act: VolAct) returns (s: State)
    requires Reachable(cfg, s0) && OnlyAt(base, s0, v) && s0.vols[v].subscribers == [] && v in s0.outPc && v in base.outPc
    requires VolCan(s0.outPc[v], act, v in cfg.flaky, true) && (TakesLock(act) ==> !Locked(s0, v))
    ensures Reachable(cfg, s) && OnlyAt(base, s, v) && v in s.outPc
    ensures (s.vols[v].status, s.outPc[v]) == VolMove(s0.vols[v].status, s0.outPc[v], act)
    ensures s.vols[v].subscribers == [] && s.volPc == s0.volPc
  {
    ReachStep(cfg, s0, OutLocal(v, act));
    s := Apply(cfg, s0, OutLocal(v, act));
  }

  /** The outside inserter runs up to its insert, which fails, and unmounts. */
  lemma OutTries(cfg: Config, base: State, s0: State, v: VolumeId) returns (s: State)
    requires Reachable(cfg, s0) && OnlyAt(base, s0, v) && v in cfg.flaky && v in s0.outPc && v in base.outPc
    requires s0.vols[v] == Volume(Inserting, []) && s0.volPc[v] == VReport(false) && s0.outPc[v] == VMount
    ensures Reachable(cfg, s) && OnlyAt(base, s, v) && v in s.outPc
    ensures s.vols[v] == Volume(Created, []) && s.volPc[v] == VReport(false) && s.outPc[v] == VSetFail
  {
    s := OutStep(cfg, base, s0, v, Mount(true));
    s := OutStep(cfg, base, s, v, Insert(false));
    s := OutStep(cfg, base, s, v, Umount(true));
  }

  lemma OutSpeaks(cfg: Config, base: State, s0: State, v: VolumeId) returns (s: State)
    requires Reachable(cfg, s0) && OnlyAt(base, s0, v) && v in s0.outPc && v in base.outPc
    requires s0.vols[v] == Volume(Created, []) && s0.volPc[v] == VReport(false) && s0.outPc[v] == VSetFail
    ensures Reachable(cfg, s) && OnlyAt(base, s, v) && v in s.outPc
    ensures s.vols[v] == Volume(Created, []) && s.volPc[v] == VReport(false) && s.outPc[v].VReport?
  {
    s := OutStep(cfg, base, s0, v, SetFail);
    s := OutStep(cfg, base, s, v, Unlock);
  }

  /** The batch's task has passed an INSERTING volume when its outside inserter gives it up. */
  lemma OutFails(cfg: Config, base: State, v: VolumeId) returns (s: State)
    requires Reachable(cfg, base) && VolAt(base, v) && v in cfg.flaky && v in base.outPc
    requires base.vols[v] == Volume(Inserting, []) && base.volPc[v] == VTransit && base.outPc[v] == VMount
    ensures Reachable(cfg, s) && OnlyAt(base, s, v) && v in s.outPc
    ensures s.vols[v] == Volume(Created, []) && s.volPc[v] == VReport(false) && s.outPc[v].VReport?
  {
    s := VolStep(cfg, base, base, v, Transit);
    s := OutTries(cfg, base, s, v);
    s := OutSpeaks(cfg, base, s, v);
  }

  lemma SpawnAll(cfg: Config) returns (s: State)
    requires ValidConfig(cfg)
    ensures Reachable(cfg, s) && Domains(cfg, s) && Waiting(cfg, s)
    ensures forall u :: u in cfg.volumes ==> s.volPc[u] == VTransit && s.vols[u] == Volume(cfg.volumes[u], [])
    ensures forall c :: c in cfg.specs ==> s.ctrPc[c] == CSubscribe(0, {})
    ensures forall u :: u in cfg.outside ==> s.outPc[u] == VMount
  {
    s := SpawnUpTo(cfg, |cfg.order|);
    assert cfg.order[..|cfg.order|] == cfg.order;
    forall u | u in cfg.volumes ensures s.volPc[u] == VTransit && s.vols[u] == Volume(cfg.volumes[u], []) {
      assert IsTask(cfg, VolTask(u)) && EarlyVol(cfg, s, s.main.next, u);
    }
    forall c | c in cfg.specs ensures s.ctrPc[c] == CSubscribe(0, {}) {
      assert IsTask(cfg, CtrTask(c)) && EarlyCtr(cfg, s, s.main.next, c);
    }
  }

  lemma TrapIsSet(cfg: Config, base: State, s: State, v: VolumeId)
    requires Domains(cfg, base) && v in cfg.volumes && Waiting(cfg, base)
    requires forall u :: u in cfg.volumes ==> base.volPc[u] == VTransit && base.vols[u] == Volume(cfg.volumes[u], [])
    requires forall u :: u in cfg.outside ==> base.outPc[u] == VMount
    requires OnlyAt(base, s, v) && s.volPc[v].VReport? && (v in cfg.outside ==> v in s.outPc && s.outPc[v].VReport?)
    requires s.vols[v].status == Created || s.vols[v].status == Inserting
    ensures Trap(cfg, s, v)
  {
  }

  lemma SetTrap(cfg: Config, v: VolumeId) returns (s: State)
    requires ValidConfig(cfg) && Treacherous(cfg, v)
    ensures Reachable(cfg, s) && Trap(cfg, s, v)
    ensures forall c :: c in cfg.specs ==> s.ctrPc[c] == CSubscribe(0, {})
  {
    var base := SpawnAll(cfg);
    if cfg.volumes[v] == Created {
      s := VolFails(cfg, base, v);
    } else if v in cfg.outside {
      s := OutFails(cfg, base, v);
    } else {
      s := VolStep(cfg, base, base, v, Transit);
    }
    TrapIsSet(cfg, base, s, v);
  }

  /** `c` has passed `k` of its names on its way into the trap. */
  ghost predicate Walking(cfg: Config, s: State, c: ContainerId, v: VolumeId, k: nat) {
    && Trap(cfg, s, v) && c in cfg.specs && k <= |cfg.specs[c]|
    && s.ctrPc[c].CSubscribe? && s.ctrPc[c].next == k
    && s.ctrPc[c].seen == (set w | w in cfg.specs[c][..k] && w in cfg.volumes)
    && (v in s.ctrPc[c].seen ==> c in s.vols[v].subscribers)
  }

  lemma WalkRepeat(cfg: Config, s: State, c: ContainerId, v: VolumeId, k: nat)
    requires Walking(cfg, s, c, v, k) && k < |cfg.specs[c]| && !FreshName(cfg, s, c)
    ensures Enabled(cfg, s, Subscribe(c)) && Walking(cfg, SubscribeNext(cfg, s, c), c, v, k + 1)
  {
    SeenGrows(cfg, c, k);
    assert SubscribeNext(cfg, s, c).ctrPc[c] == CSubscribe(k + 1, s.ctrPc[c].seen);
    SubscribeShape(cfg, s, c);
    TrapFrame(cfg, s, SubscribeNext(cfg, s, c), v);
  }

  /** Subscribing changes no status and moves no volume. */
  lemma SubscribeShape(cfg: Config, s: State, c: ContainerId)
    requires Domains(cfg, s) && CtrAt(cfg, s, c) && s.ctrPc[c].CSubscribe? && s.ctrPc[c].next < |cfg.specs[c]|
    ensures var s' := SubscribeNext(cfg, s, c);
            && Domains(cfg, s') && s'.volPc == s.volPc && s'.outPc == s.outPc && s'.main == s.main
            && forall u :: u in s.vols ==> s'.vols[u].status == s.vols[u].status
  {
    var s', v := SubscribeNext(cfg, s, c), cfg.specs[c][s.ctrPc[c].next];
    if FreshName(cfg, s, c) && SubscribeOutcome(s.vols[v].status) == Queued {
      assert s'.vols == s.vols[v := s.vols[v].(subscribers := s.vols[v].subscribers + [c])];
    } else {
      assert s'.vols == s.vols;
    }
  }

  lemma TrapFrame(cfg: Config, s: State, s': State, v: VolumeId)
    requires Trap(cfg, s, v) && Domains(cfg, s')
    requires s'.volPc == s.volPc && s'.outPc == s.outPc && s'.main == s.main
    requires forall u :: u in s.vols ==> s'.vols[u].status == s.vols[u].status
    ensures Trap(cfg, s', v)
  {
  }

  lemma WalkFresh(cfg: Config, s: State, c: ContainerId, v: VolumeId, k: nat)
    requires Walking(cfg, s, c, v, k) && k < |cfg.specs[c]| && FreshName(cfg, s, c)
    requires cfg.volumes[cfg.specs[c][k]] != Error
    ensures Enabled(cfg, s, Subscribe(c)) && Walking(cfg, SubscribeNext(cfg, s, c), c, v, k + 1)
  {
    SeenGrows(cfg, c, k);
    var u, s' := cfg.specs[c][k], SubscribeNext(cfg, s, c);
    assert s.vols[u].status != Error;
    assert s'.ctrPc[c] == CSubscribe(k + 1, s.ctrPc[c].seen + {u});
    assert s.vols[u].status != Inserted ==> c in s'.vols[u].subscribers;
    SubscribeShape(cfg, s, c);
    TrapFrame(cfg, s, SubscribeNext(cfg, s, c), v);
  }

  lemma WalkOne(cfg: Config, s: State, c: ContainerId, v: VolumeId, k: nat)
    requires Walking(cfg, s, c, v, k) && k < |cfg.specs[c]|
    requires forall u :: u in Named(cfg, c) ==> cfg.volumes[u] != Error
    ensures Enabled(cfg, s, Subscribe(c)) && Walking(cfg, Apply(cfg, s, Subscribe(c)), c, v, k + 1)
  {
    if FreshName(cfg, s, c) {
      assert cfg.specs[c][k] in Named(cfg, c);
      WalkFresh(cfg, s, c, v, k);
    } else {
      WalkRepeat(cfg, s, c, v, k);
    }
  }

  /** The container walks into the trap: it subscribes to every volume it names. */
  lemma {:induction false} WalkTo(cfg: Config, s0: State, c: ContainerId, v: VolumeId, k: nat) returns (s: State)
    requires Reachable(cfg, s0) && Walking(cfg, s0, c, v, 0) && k <= |cfg.specs[c]|
    requires forall u :: u in Named(cfg, c) ==> cfg.volumes[u] != Error
    ensures Reachable(cfg, s) && Walking(cfg, s, c, v, k)
  {
    if k == 0 {
      s := s0;
    } else {
      var s1 := WalkTo(cfg, s0, c, v, k - 1);
      WalkOne(cfg, s1, c, v, k - 1);
      ReachStep(cfg, s1, Subscribe(c));
      s := Apply(cfg, s1, Subscribe(c));
    }
  }

  /** `c` waits for `v`, whose task will notify nobody any more. */
  ghost predicate Blocked(cfg: Config, s: State, c: ContainerId, v: VolumeId) {
    && Domains(cfg, s) && c in cfg.specs && v in cfg.volumes && s.main.MSpawn?
    && s.ctrPc[c].CWait? && c in s.vols[v].subscribers
    && (s.volPc[v].VReport? || s.volPc[v].VDone?) && (v in cfg.outside ==> s.outPc[v].VReport?)
  }

  lemma BlockedNotify(cfg: Config, s: State, u: VolumeId, c: ContainerId, v: VolumeId)
    requires Blocked(cfg, s, c, v) && Enabled(cfg, s, Notify(u)) && Domains(cfg, NotifyHead(s, u))
    ensures Blocked(cfg, NotifyHead(s, u), c, v)
  {
    assert u != v;
  }

  lemma BlockedVolumeStep(cfg: Config, s: State, st: Step, c: ContainerId, v: VolumeId)
    requires Blocked(cfg, s, c, v) && Enabled(cfg, s, st) && (st.VolLocal? || st.OutLocal? || st.VolSend?)
    requires Domains(cfg, Apply(cfg, s, st))
    ensures Blocked(cfg, Apply(cfg, s, st), c, v)
  {
    var s' := Apply(cfg, s, st);
    assert s'.ctrPc == s.ctrPc && s'.main == s.main && s'.vols[v].subscribers == s.vols[v].subscribers;
  }

  lemma BlockedSubscribe(cfg: Config, s: State, d: ContainerId, c: ContainerId, v: VolumeId)
    requires Blocked(cfg, s, c, v) && Enabled(cfg, s, Subscribe(d)) && Domains(cfg, SubscribeNext(cfg, s, d))
    ensures Blocked(cfg, SubscribeNext(cfg, s, d), c, v)
  {
    var s' := SubscribeNext(cfg, s, d);
    assert d != c && s'.volPc == s.volPc && s'.main == s.main && s'.ctrPc[c] == s.ctrPc[c];
    assert c in s'.vols[v].subscribers;
  }

  lemma BlockedContainerStep(cfg: Config, s: State, st: Step, c: ContainerId, v: VolumeId)
    requires Blocked(cfg, s, c, v) && Enabled(cfg, s, st) && (st.CtrLocal? || st.CtrSend?)
    requires s.groups[c].counter != 0 && Domains(cfg, Apply(cfg, s, st))
    ensures Blocked(cfg, Apply(cfg, s, st), c, v)
  {
    var s' := Apply(cfg, s, st);
    assert s'.vols == s.vols && s'.volPc == s.volPc && s'.main == s.main;
    assert st.c != c && s'.ctrPc[c] == s.ctrPc[c];
  }

  lemma BlockedStep(cfg: Config, s: State, st: Step, c: ContainerId, v: VolumeId)
    requires Blocked(cfg, s, c, v) && Enabled(cfg, s, st) && st != Timeout
    requires s.groups[c].counter != 0 && CtrTask(c) in s.waitList
    requires st.Spawn? ==> cfg.order[s.main.next] != CtrTask(c) && cfg.order[s.main.next] != VolTask(v)
    requires Domains(cfg, Apply(cfg, s, st))
    ensures Blocked(cfg, Apply(cfg, s, st), c, v)
  {
    if st.Notify? {
      BlockedNotify(cfg, s, st.v, c, v);
    } else if st.VolLocal? || st.OutLocal? || st.VolSend? {
      BlockedVolumeStep(cfg, s, st, c, v);
    } else if st.Subscribe? {
      BlockedSubscribe(cfg, s, st.c, c, v);
    } else if IsContainerStep(st) {
      BlockedContainerStep(cfg, s, st, c, v);
    }
  }

  lemma StaysBlocked(cfg: Config, s: State, st: Step, c: ContainerId, v: VolumeId)
    requires ValidConfig(cfg) && Inv(cfg, s) && Blocked(cfg, s, c, v) && Enabled(cfg, s, st) && st != Timeout
    requires Domains(cfg, Apply(cfg, s, st))
    ensures Blocked(cfg, Apply(cfg, s, st), c, v)
  {
    assert JoinedOk(cfg, s, CtrTask(c)) && JoinedOk(cfg, s, VolTask(v)) && CtrInv(cfg, s, c);
    assert v in Sites(s, c);
    assert st.Spawn? ==> cfg.order[s.main.next] !in cfg.order[..s.main.next];
    BlockedStep(cfg, s, st, c, v);
  }

  /** A blocked batch runs into a stuck state, whatever the rest of it does. */
  lemma {:induction false} Drain(cfg: Config, s0: State, c: ContainerId, v: VolumeId) returns (s: State)
    requires ValidConfig(cfg) && Inv(cfg, s0) && Blocked(cfg, s0, c, v) && Reachable(cfg, s0)
    ensures Reachable(cfg, s) && Stuck(cfg, s)
    decreases Measure(cfg, s0)
  {
    if Stuck(cfg, s0) {
      s := s0;
    } else {
      var st :| Enabled(cfg, s0, st) && st != Timeout;
      StepInv(cfg, s0, st);
      StepDecreases(cfg, s0, st);
      RankSumNat(cfg, Apply(cfg, s0, st), cfg.order);
      StaysBlocked(cfg, s0, st, c, v);
      ReachStep(cfg, s0, st);
      s := Drain(cfg, Apply(cfg, s0, st), c, v);
    }
  }

  lemma CtrMoves(cfg: Config, s0: State, c: ContainerId, act: CtrAct) returns (s: State)
    requires Reachable(cfg, s0) && Enabled(cfg, s0, CtrLocal(c, act))
    ensures Reachable(cfg, s)
    ensures s == s0.(ctrPc := s0.ctrPc[c := CtrMove(act, Named(cfg, c) != {}, s0.groups[c].errs != [])])
  {
    ReachStep(cfg, s0, CtrLocal(c, act));
    s := Apply(cfg, s0, CtrLocal(c, act));
  }

  lemma Asleep(cfg: Config, s: State, c: ContainerId, v: VolumeId)
    requires c in cfg.specs && Walking(cfg, s, c, v, |cfg.specs[c]|) && v in Named(cfg, c)
    ensures Enabled(cfg, s, CtrLocal(c, Subscribed)) && c in s.ctrPc && c in s.groups
    ensures Enabled(cfg, s.(ctrPc := s.ctrPc[c := CPrepare]), CtrLocal(c, Prepare(true)))
    ensures Blocked(cfg, s.(ctrPc := s.ctrPc[c := CWait]), c, v)
  {
    assert cfg.specs[c][..|cfg.specs[c]|] == cfg.specs[c];
  }

  /** The container has subscribed to everything, and goes to sleep. */
  lemma FallAsleep(cfg: Config, s0: State, c: ContainerId, v: VolumeId) returns (s: State)
    requires Reachable(cfg, s0) && c in cfg.specs && Walking(cfg, s0, c, v, |cfg.specs[c]|) && v in Named(cfg, c)
    ensures Reachable(cfg, s) && Blocked(cfg, s, c, v)
  {
    Asleep(cfg, s0, c, v);
    s := CtrMoves(cfg, s0, c, Subscribed);
    s := CtrMoves(cfg, s, c, Prepare(true));
    assert s == s0.(ctrPc := s0.ctrPc[c := CWait]);
  }

  lemma RiskyGetsStuck(cfg: Config, c: ContainerId) returns (s: State)
    requires ValidConfig(cfg) && Risky(cfg, c)
    ensures Reachable(cfg, s) && Stuck(cfg, s)
  {
    var v :| v in Named(cfg, c) && Treacherous(cfg, v);
    s := SetTrap(cfg, v);
    s := WalkTo(cfg, s, c, v, |cfg.specs[c]|);
    s := FallAsleep(cfg, s, c, v);
    ReachableInv(cfg, s);
    s := Drain(cfg, s, c, v);
  }

  /**
   A batch can get stuck exactly when some container names a volume that is INSERTING with
   nobody left who inserts it, or whose insert may fail after its mount, and names no volume
   in ERROR.
   In every other batch each unfinished state has a step besides the timeout.
   */
  lemma StuckIff(cfg: Config)
    requires ValidConfig(cfg)
    ensures (exists s :: Reachable(cfg, s) && Stuck(cfg, s)) <==> (exists c :: Risky(cfg, c))
  {
    if c :| Risky(cfg, c) {
      var s := RiskyGetsStuck(cfg, c);
    } else {
      forall s | Reachable(cfg, s) ensures !Stuck(cfg, s) {
        ReachableInv(cfg, s);
        if s.main.MSpawn? { NotStuck(cfg, s); }
      }
    }
  }

  /** Without a risky container, a schedule that cannot go on has joined all its tasks. */
  lemma RunsToTheEnd(cfg: Config, s: State)
    requires ValidConfig(cfg) && Reachable(cfg, s)
    requires forall c :: !Risky(cfg, c)
    requires forall st :: Enabled(cfg, s, st) ==> st == Timeout
    ensures s.main == MFinished || s.main == MTimedOut
  {
    ReachableInv(cfg, s);
    if s.main.MSpawn? { NotStuck(cfg, s); }
  }
}
