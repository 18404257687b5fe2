/** What a provisioning batch promises, over every schedule. */
module ProvisioningTheorems {
  import opened Basics
  import opened VolumeStates
  import opened Provisioning
  import opened ProvisioningSafety

  /**
   Notification conservation: a wait group's counter is the number of subscriber lists
   it stands in, it stands in none of them twice, so it is never negative; and an
   inserted volume keeps no subscriber once its lock is free.
   */
  lemma Conservation(cfg: Config, s: State)
    requires ValidConfig(cfg) && Reachable(cfg, s)
    ensures forall c :: c in s.groups ==> s.groups[c].counter == |Sites(s, c)| >= 0
    ensures forall v :: v in s.vols ==> NoDup(s.vols[v].subscribers)
    ensures forall v :: v in s.vols && s.vols[v].status == Inserted && !Locked(s, v) ==> s.vols[v].subscribers == []
  {
    ReachableInv(cfg, s);
    forall c | c in s.groups ensures s.groups[c].counter == |Sites(s, c)| {
      assert CtrInv(cfg, s, c);
    }
    forall v | v in s.vols
      ensures NoDup(s.vols[v].subscribers)
      ensures s.vols[v].status == Inserted && !Locked(s, v) ==> s.vols[v].subscribers == []
    {
      assert VolInv(cfg, s, v);
    }
  }

  /** The container is handed to the sandbox only when every volume it names is inserted. */
  lemma AddOnlyAfterInsert(cfg: Config, s: State, c: ContainerId, ok: bool)
    requires ValidConfig(cfg) && Reachable(cfg, s)
    requires Enabled(cfg, s, CtrLocal(c, AddContainer(ok)))
    ensures forall v :: v in Named(cfg, c) ==> v in s.vols && s.vols[v].status == Inserted
  {
    ReachableInv(cfg, s);
    assert CtrInv(cfg, s, c);
  }

  /** An outside inserter may give the volume up after its mount; the batch's task may then insert it after all. */
  predicate TwiceTried(cfg: Config, v: VolumeId) {
    v in cfg.outside && v in cfg.flaky
  }

  /** Whether one named volume has failed the container that has heard of all of them. */
  lemma WaitVolume(cfg: Config, s: State, c: ContainerId, v: VolumeId)
    requires Domains(cfg, s) && c in cfg.specs && v in cfg.volumes && v in Named(cfg, c)
    requires VolInv(cfg, s, v) && CtrInv(cfg, s, c) && s.ctrPc[c].CWait? && c !in s.vols[v].subscribers
    ensures s.vols[v].status == Inserted || v in s.groups[c].errs
    ensures v in s.groups[c].errs ==> FailedVol(s, v)
    ensures !TwiceTried(cfg, v) && FailedVol(s, v) ==> s.vols[v].status != Inserted
  {
    assert Accounted(s, c, v);
  }

  /**
   What `wg.Wait` returns: without an error all named volumes are inserted, and an error names
   only named volumes whose `add` failed. With no volume that is tried twice there is no error
   exactly when all are inserted, and exactly when none failed.
   */
  lemma WaitMeaning(cfg: Config, s: State, c: ContainerId)
    requires ValidConfig(cfg) && Reachable(cfg, s)
    requires Enabled(cfg, s, CtrLocal(c, Wake))
    ensures Domains(cfg, s)
    ensures s.groups[c].errs == [] ==> AllInserted(cfg, s, c)
    ensures forall v :: v in s.groups[c].errs ==> v in Named(cfg, c) && FailedVol(s, v)
    ensures (forall v :: v in Named(cfg, c) ==> !TwiceTried(cfg, v)) ==>
              && (s.groups[c].errs == [] <==> AllInserted(cfg, s, c))
              && (s.groups[c].errs == [] <==> forall v :: v in Named(cfg, c) ==> !FailedVol(s, v))
  {
    ReachableInv(cfg, s);
    assert CtrInv(cfg, s, c);
    NoSite(s, c);
    forall v | v in Named(cfg, c)
      ensures s.vols[v].status == Inserted || v in s.groups[c].errs
      ensures v in s.groups[c].errs ==> FailedVol(s, v)
      ensures !TwiceTried(cfg, v) && FailedVol(s, v) ==> s.vols[v].status != Inserted
    {
      assert VolInv(cfg, s, v);
      WaitVolume(cfg, s, c, v);
    }
    WaitCollected(cfg, s, c);
  }

  lemma WaitCollected(cfg: Config, s: State, c: ContainerId)
    requires Domains(cfg, s) && c in cfg.specs && CtrInv(cfg, s, c) && s.ctrPc[c].CWait?
    requires forall v :: v in Named(cfg, c) ==> s.vols[v].status == Inserted || v in s.groups[c].errs
    ensures s.groups[c].errs == [] ==> AllInserted(cfg, s, c)
    ensures forall v :: v in s.groups[c].errs ==> v in Named(cfg, c) && FailedVol(s, v)
    ensures s.groups[c].errs != [] ==> s.groups[c].errs[0] in Named(cfg, c)
  {
    assert Processed(cfg, s, c) == Named(cfg, c);
    if s.groups[c].errs != [] { assert s.groups[c].errs[0] in s.groups[c].errs; }
  }

  /** How often, along a schedule from `s`, the wait group of `c` is notified by `v`. */
  ghost function Notifications(cfg: Config, s: State, steps: seq<Step>, c: ContainerId, v: VolumeId): nat
    decreases |steps|
  {
    if steps == [] || !Enabled(cfg, s, steps[0]) then 0
    else
      (if steps[0] == Notify(v) && s.vols[v].subscribers[0] == c then 1 else 0)
      + Notifications(cfg, Apply(cfg, s, steps[0]), steps[1..], c, v)
  }

  /** How often `c` can still be notified by `v`. */
  ghost function Due(cfg: Config, s: State, c: ContainerId, v: VolumeId): nat
    requires Domains(cfg, s) && c in cfg.specs && v in cfg.volumes
  {
    if c in s.vols[v].subscribers || (v !in Processed(cfg, s, c)) then 1 else 0
  }

  lemma NotifyDue(cfg: Config, s: State, u: VolumeId, c: ContainerId, v: VolumeId)
    requires Inv(cfg, s) && Enabled(cfg, s, Notify(u)) && c in cfg.specs && v in cfg.volumes
    requires Domains(cfg, NotifyHead(s, u))
    ensures Due(cfg, NotifyHead(s, u), c, v) + (if u == v && s.vols[v].subscribers[0] == c then 1 else 0)
            <= Due(cfg, s, c, v)
  {
    var s' := NotifyHead(s, u);
    var subs := s.vols[u].subscribers;
    assert VolInv(cfg, s, u);
    assert Processed(cfg, s', c) == Processed(cfg, s, c);
    assert subs[0] in subs && subs[0] !in subs[1..];
    assert forall d :: d in subs[1..] ==> d in subs;
  }

  /** Subscribing adds the container to the queue of the next name at most, and only when it is new to it. */
  lemma SubscribeWhere(cfg: Config, s: State, c: ContainerId, v: VolumeId)
    requires Domains(cfg, s) && Enabled(cfg, s, Subscribe(c)) && c in cfg.specs && v in cfg.volumes
    requires c in SubscribeNext(cfg, s, c).vols[v].subscribers && c !in s.vols[v].subscribers
    ensures v !in s.ctrPc[c].seen
  {
  }

  /** `c` subscribes to a volume only when it passes it for the first time. */
  lemma SubscribeDue(cfg: Config, s: State, c: ContainerId, v: VolumeId)
    requires Domains(cfg, s) && Enabled(cfg, s, Subscribe(c)) && c in cfg.specs && v in cfg.volumes
    requires Domains(cfg, SubscribeNext(cfg, s, c)) && CtrInv(cfg, s, c)
    ensures Due(cfg, SubscribeNext(cfg, s, c), c, v) <= Due(cfg, s, c, v)
  {
    var s' := SubscribeNext(cfg, s, c);
    if c in s'.vols[v].subscribers && c !in s.vols[v].subscribers {
      SubscribeWhere(cfg, s, c, v);
    }
    assert Processed(cfg, s, c) <= Processed(cfg, s', c);
  }

  lemma OwnStepDue(cfg: Config, s: State, st: Step, c: ContainerId, v: VolumeId)
    requires Domains(cfg, s) && Enabled(cfg, s, st) && c in cfg.specs && v in cfg.volumes
    requires Domains(cfg, Apply(cfg, s, st)) && CtrInv(cfg, s, c)
    requires st == Subscribe(c) || st == CtrSend(c) || (st.CtrLocal? && st.c == c)
    ensures Due(cfg, Apply(cfg, s, st), c, v) <= Due(cfg, s, c, v)
  {
    if st.Subscribe? {
      SubscribeDue(cfg, s, c, v);
    } else if st.CtrLocal? && st.cact.Subscribed? {
      assert cfg.specs[c][..s.ctrPc[c].next] == cfg.specs[c];
    }
  }

  lemma SpawnDue(cfg: Config, s: State, c: ContainerId, v: VolumeId)
    requires ValidConfig(cfg) && Domains(cfg, s) && Enabled(cfg, s, Spawn) && c in cfg.specs && v in cfg.volumes
    requires Domains(cfg, Apply(cfg, s, Spawn)) && JoinedOk(cfg, s, CtrTask(c))
    ensures Due(cfg, Apply(cfg, s, Spawn), c, v) <= Due(cfg, s, c, v)
  {
    var s', t := Apply(cfg, s, Spawn), cfg.order[s.main.next];
    assert s'.vols == s.vols;
    if t == CtrTask(c) {
      assert t !in cfg.order[..s.main.next];
      assert s.ctrPc[c].CUnspawned?;
    } else {
      assert s'.ctrPc[c] == s.ctrPc[c];
    }
  }

  lemma OtherStepDue(cfg: Config, s: State, st: Step, c: ContainerId, v: VolumeId)
    requires Domains(cfg, s) && Enabled(cfg, s, st) && c in cfg.specs && v in cfg.volumes
    requires Domains(cfg, Apply(cfg, s, st)) && !st.Notify? && !st.Spawn?
    requires (st.Subscribe? || st.CtrSend? || st.CtrLocal?) ==> st.c != c
    ensures Due(cfg, Apply(cfg, s, st), c, v) == Due(cfg, s, c, v)
  {
    var s' := Apply(cfg, s, st);
    assert s'.ctrPc[c] == s.ctrPc[c];
    assert c in s'.vols[v].subscribers <==> c in s.vols[v].subscribers;
  }

  lemma {:induction false} NotifiedWithinDue(cfg: Config, s: State, steps: seq<Step>, c: ContainerId, v: VolumeId)
    requires ValidConfig(cfg) && Inv(cfg, s) && c in cfg.specs && v in cfg.volumes
    ensures Notifications(cfg, s, steps, c, v) <= Due(cfg, s, c, v)
    decreases |steps|
  {
    if steps == [] || !Enabled(cfg, s, steps[0]) {
    } else {
      var s' := Apply(cfg, s, steps[0]);
      StepInv(cfg, s, steps[0]);
      NotifiedWithinDue(cfg, s', steps[1..], c, v);
      if steps[0].Notify? {
        NotifyDue(cfg, s, steps[0].v, c, v);
      } else if steps[0].Spawn? {
        assert JoinedOk(cfg, s, CtrTask(c));
        SpawnDue(cfg, s, c, v);
      } else if steps[0] == Subscribe(c) || steps[0] == CtrSend(c) || (steps[0].CtrLocal? && steps[0].c == c) {
        assert CtrInv(cfg, s, c);
        OwnStepDue(cfg, s, steps[0], c, v);
      } else {
        OtherStepDue(cfg, s, steps[0], c, v);
      }
    }
  }

  /** Along any schedule of a batch, a volume notifies a container at most once. */
  lemma NotifiedAtMostOnce(cfg: Config, steps: seq<Step>, c: ContainerId, v: VolumeId)
    requires ValidConfig(cfg) && c in cfg.specs && v in cfg.volumes
    ensures Notifications(cfg, Init(cfg), steps, c, v) <= 1
  {
    InitInv(cfg);
    NotifiedWithinDue(cfg, Init(cfg), steps, c, v);
  }

  lemma FinishedTask(cfg: Config, s: State, t: TaskId)
    requires Domains(cfg, s) && JoinOk(cfg, s) && s.main.MFinished? && IsTask(cfg, t) && t in cfg.order
    ensures PhaseOf(cfg, s, t) == Ended(t in s.failed)
  {
    assert JoinedOk(cfg, s, t);
    assert cfg.order[..|cfg.order|] == cfg.order;
  }

  lemma FinishedVolume(cfg: Config, s: State, v: VolumeId)
    requires Domains(cfg, s) && v in cfg.volumes && VolInv(cfg, s, v) && s.volPc[v] == VDone(false)
    ensures s.vols[v].status == Inserted || cfg.volumes[v] == Inserting
  {
  }

  /**
   When `FutureSet.Wait` returns without a timeout every task has ended, and it reports
   exactly the tasks that failed. Without a report every container is in the sandbox with
   all its volumes inserted, and so is every volume that was not already being inserted.
   */
  lemma FinishedMeaning(cfg: Config, s: State)
    requires ValidConfig(cfg) && Reachable(cfg, s) && s.main.MFinished?
    ensures Domains(cfg, s)
    ensures forall t :: IsTask(cfg, t) ==> PhaseOf(cfg, s, t) == Ended(t in s.failed)
    ensures s.failed == {} ==>
              && (forall v :: v in cfg.volumes ==> s.vols[v].status == Inserted || cfg.volumes[v] == Inserting)
              && (forall c :: c in cfg.specs ==> s.ctrPc[c] == CDone(false) && AllInserted(cfg, s, c))
  {
    ReachableInv(cfg, s);
    forall t | IsTask(cfg, t) ensures PhaseOf(cfg, s, t) == Ended(t in s.failed) {
      FinishedTask(cfg, s, t);
    }
    if s.failed == {} {
      forall v | v in cfg.volumes ensures s.vols[v].status == Inserted || cfg.volumes[v] == Inserting {
        assert VolInv(cfg, s, v) && PhaseOf(cfg, s, VolTask(v)) == Ended(false);
        FinishedVolume(cfg, s, v);
      }
      forall c | c in cfg.specs ensures s.ctrPc[c] == CDone(false) && AllInserted(cfg, s, c) {
        assert CtrInv(cfg, s, c) && PhaseOf(cfg, s, CtrTask(c)) == Ended(false);
      }
    }
  }
}
