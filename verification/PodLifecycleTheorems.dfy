/** What holds over every interleaving of the life-cycle steps. */
module PodLifecycleTheorems {
  import opened Basics
  import opened PodLifecycle

  // ---- the invariant when at most one creation runs at a time ----

  predicate BeforeMonitor(c: Creator) {
    c.Booting? || c.Assigned? || c.Announced?
  }

  predicate InSection(m: Monitor) {
    m.Locked? || m.Cleaning? || m.Closing? || m.Putting?
  }

  /** A monitor that may still write the status. */
  predicate Active(m: Monitor) {
    !m.Putting? && !m.Gone?
  }

  ghost predicate OneCreator(s: State) {
    forall i, j :: 0 <= i < |s.creators| && 0 <= j < |s.creators| && i != j ==> s.creators[i].Done? || s.creators[j].Done?
  }

  ghost predicate LockOk(s: State) {
    && (s.lock.Cleaner? ==> s.lock.m < |s.monitors|)
    && (forall i :: 0 <= i < |s.monitors| ==> (s.lock == Cleaner(i) <==> InSection(s.monitors[i])))
  }

  /** One active monitor at most, and none while stopped or before a creation has started its own. */
  ghost predicate MonitorsOk(s: State) {
    && (forall i, j :: 0 <= i < j < |s.monitors| ==> !Active(s.monitors[i]) || !Active(s.monitors[j]))
    && (s.status.Stopped? ==> Calm(s))
    && (forall i :: 0 <= i < |s.creators| && BeforeMonitor(s.creators[i]) ==> Calm(s))
  }

  ghost predicate Calm(s: State) {
    forall j :: 0 <= j < |s.monitors| ==> !Active(s.monitors[j])
  }

  ghost predicate StatusOk(s: State) {
    && (forall i :: 0 <= i < |s.creators| && (s.creators[i].Booting? || s.creators[i].Assigned?) ==>
          s.status.Stopped? || s.status.NoPod? || s.status.Error?)
    && (forall i :: 0 <= i < |s.creators| && s.creators[i].Announced? ==> !s.status.Stopped?)
    && (forall i :: 0 <= i < |s.monitors| && (s.monitors[i].Cleaning? || s.monitors[i].Closing?) ==> !Up(s.status))
  }

  /** A pod that is up has a sandbox, and so has a stop that is going on. */
  predicate Safe(s: State) {
    (Up(s.status) || s.lock.Shutting?) ==> s.sandbox
  }

  ghost predicate SandboxOk(s: State) {
    Safe(s) && forall i :: 0 <= i < |s.creators| && s.creators[i].Assigned? ==> s.sandbox
  }

  ghost predicate Inv(s: State) {
    OneCreator(s) && LockOk(s) && MonitorsOk(s) && StatusOk(s) && SandboxOk(s)
  }

  lemma {:induction false} NoneInFlight(cs: seq<Creator>)
    ensures InFlight(cs) == 0 <==> forall i :: 0 <= i < |cs| ==> cs[i].Done?
  {
    if cs == [] {
    } else {
      NoneInFlight(cs[1..]);
      assert forall i :: 0 < i < |cs| ==> cs[i] == cs[1..][i - 1];
      assert forall i :: 0 <= i < |cs[1..]| ==> cs[1..][i] == cs[i + 1];
    }
  }

  lemma CreatorMonitors(s: State, i: nat, m: CreatorMove, s': State)
    requires Inv(s) && i < |s.creators| && CreatorNext(s, i, m) == Some(s')
    ensures OneCreator(s') && LockOk(s') && MonitorsOk(s')
  {
  }

  lemma CreatorStatus(s: State, i: nat, m: CreatorMove, s': State)
    requires Inv(s) && i < |s.creators| && CreatorNext(s, i, m) == Some(s')
    ensures StatusOk(s') && SandboxOk(s')
  {
  }

  lemma CreatorInv(s: State, i: nat, m: CreatorMove, s': State)
    requires Inv(s) && i < |s.creators| && CreatorNext(s, i, m) == Some(s')
    ensures Inv(s')
  {
    CreatorMonitors(s, i, m, s');
    CreatorStatus(s, i, m, s');
  }

  lemma MonitorInv(s: State, i: nat, m: MonitorMove, s': State)
    requires Inv(s) && i < |s.monitors| && MonitorNext(s, i, m) == Some(s')
    ensures Inv(s')
  {
  }

  lemma OtherInv(s: State, m: OtherMove, s': State)
    requires Inv(s) && OtherNext(s, m) == Some(s')
    ensures Inv(s')
  {
  }

  lemma StepInv(k: nat, s: State, step: Step, s': State)
    requires k <= 1 && Inv(s) && Next(k, s, step) == Some(s')
    ensures Inv(s')
  {
    match step
    case Begin => NoneInFlight(s.creators);
    case Create(i, m) => CreatorInv(s, i, m, s');
    case Watch(i, m) => MonitorInv(s, i, m, s');
    case Do(m) => OtherInv(s, m, s');
  }

  lemma {:induction false} LeadsInv(k: nat, s: State, steps: seq<Step>, t: State)
    requires k <= 1 && Inv(s) && Leads(k, s, steps, t)
    ensures Inv(t)
    decreases steps
  {
    if steps == [] {
    } else {
      var next := Next(k, s, steps[0]).value;
      StepInv(k, s, steps[0], next);
      LeadsInv(k, next, steps[1..], t);
    }
  }

  lemma ReachableInv(k: nat, s: State)
    requires k <= 1 && Reachable(k, s)
    ensures Inv(s)
  {
    var init, steps :| IsInit(init) && Leads(k, init, steps, s);
    LeadsInv(k, init, steps, s);
  }

  // ---- the sandbox ----

  /** With at most one creation in flight, a pod that is STARTING, RUNNING or PAUSED has a sandbox. */
  lemma UpHasSandbox(k: nat, s: State)
    requires k <= 1 && Reachable(k, s)
    ensures Safe(s)
  {
    ReachableInv(k, s);
  }

  lemma {:induction false} LeadsThen(k: nat, s: State, steps: seq<Step>, t: State, step: Step, t': State)
    requires Leads(k, s, steps, t) && Next(k, t, step) == Some(t')
    ensures Leads(k, s, steps + [step], t')
    decreases steps
  {
    if steps == [] {
      assert [step][1..] == [];
    } else {
      assert (steps + [step])[1..] == steps[1..] + [step];
      LeadsThen(k, Next(k, s, steps[0]).value, steps[1..], t, step, t');
    }
  }

  lemma Then(k: nat, s: State, step: Step, s': State)
    requires Reachable(k, s) && Next(k, s, step) == Some(s')
    ensures Reachable(k, s')
  {
    var init, steps :| IsInit(init) && Leads(k, init, steps, s);
    LeadsThen(k, init, steps, s, step, s');
  }

  /** Two starts of a stopped pod begin. */
  lemma OverlapBegins(k: nat) returns (s: State)
    requires k >= 2
    ensures Reachable(k, s) && s == Fresh(Stopped, false, [Booting, Booting], [])
  {
    var s0 := Fresh(Stopped, false, [], []);
    assert Leads(k, s0, [], s0);
    var s1 := s0.(creators := [Booting]);
    assert s0.creators + [Booting] == s1.creators;
    Then(k, s0, Begin, s1);
    assert [Booting][1..] == [] && InFlight([Booting]) == 1;
    s := s0.(creators := [Booting, Booting]);
    assert s1.creators + [Booting] == s.creators;
    Then(k, s1, Begin, s);
  }

  /** The first one runs until it has its monitor. */
  lemma OverlapStarts(k: nat, s: State) returns (s': State)
    requires Reachable(k, s) && s == Fresh(Stopped, false, [Booting, Booting], [])
    ensures Reachable(k, s') && s' == Fresh(Starting, true, [Initing, Booting], [Spawned])
  {
    var s1 := s.(creators := [Assigned, Booting], sandbox := true);
    assert s.creators[0 := Assigned] == s1.creators;
    Then(k, s, Create(0, Assign), s1);
    var s2 := s1.(creators := [Announced, Booting], status := Starting);
    assert s1.creators[0 := Announced] == s2.creators;
    Then(k, s1, Create(0, Announce), s2);
    s' := s2.(creators := [Initing, Booting], monitors := [Spawned]);
    assert s2.creators[0 := Initing] == s'.creators;
    assert s2.monitors + [Spawned] == s'.monitors;
    Then(k, s2, Create(0, Monitor), s');
  }

  /** The machine of a starting pod exits, and its cleanup settles the status. */
  lemma MachineExits(k: nat, s: State) returns (s': State)
    requires Reachable(k, s) && s.status.Starting? && s.monitors == [Spawned] && s.lock.Free?
    ensures Reachable(k, s') && s' == s.(monitors := [Cleaning], lock := Cleaner(0), status := Stopping)
  {
    var s1 := s.(monitors := [Waiting]);
    assert s.monitors[0 := Waiting] == s1.monitors;
    Then(k, s, Watch(0, Check), s1);
    var s2 := s.(monitors := [WantLock]);
    assert s1.monitors[0 := WantLock] == s2.monitors;
    Then(k, s1, Watch(0, VmExit), s2);
    var s3 := s.(monitors := [Locked], lock := Cleaner(0));
    assert s2.monitors[0 := Locked] == s3.monitors;
    Then(k, s2, Watch(0, Lock), s3);
    s' := s3.(monitors := [Cleaning], status := Stopping);
    assert s3.monitors[0 := Cleaning] == s'.monitors;
    Then(k, s3, Watch(0, Decide), s');
  }

  /**
   Two overlapping starts break it: the first one's cleanup clears the sandbox that the second
   has just written, and the second then says STARTING.
   */
  lemma Overlap(k: nat) returns (s: State)
    requires k >= 2
    ensures Reachable(k, s) && !Safe(s)
  {
    var s0 := OverlapBegins(k);
    s0 := OverlapStarts(k, s0);
    var s1 := MachineExits(k, s0);
    var s2 := s1.(creators := [Initing, Assigned], sandbox := true);
    assert s1.creators[1 := Assigned] == s2.creators;
    Then(k, s1, Create(1, Assign), s2);
    var s3 := s2.(monitors := [Closing], sandbox := false);
    assert s2.monitors[0 := Closing] == s3.monitors;
    Then(k, s2, Watch(0, Clear), s3);
    s := s3.(creators := [Initing, Announced], status := Starting);
    assert s3.creators[1 := Announced] == s.creators;
    Then(k, s3, Create(1, Announce), s);
  }

  /** Every run with at most `k` creations in flight is safe exactly when `k` is at most 1. */
  lemma SafeIff(k: nat)
    ensures (forall s :: Reachable(k, s) ==> Safe(s)) <==> k <= 1
  {
    if k <= 1 {
      forall s | Reachable(k, s) ensures Safe(s) { UpHasSandbox(k, s); }
    } else {
      var s := Overlap(k);
    }
  }

  // ---- no way back up ----

  predicate IsAnnounce(step: Step) {
    step.Create? && step.cm.Announce?
  }

  lemma CreatorRaises(s: State, i: nat, m: CreatorMove, s': State)
    requires i < |s.creators| && CreatorNext(s, i, m) == Some(s') && !Up(s.status)
    ensures m.Announce? || !Up(s'.status)
    ensures NoneBeforeAnnounce(s) ==> !m.Announce? && NoneBeforeAnnounce(s')
  {
  }

  lemma OthersDoNotRaise(k: nat, s: State, step: Step, s': State)
    requires Next(k, s, step) == Some(s') && !Up(s.status) && !step.Create?
    ensures !Up(s'.status) && (step.Begin? || s'.creators == s.creators)
  {
  }

  /** With any number of creations: only the STARTING write of a creation leads out of the down states. */
  lemma OnlyAnnounceRaises(k: nat, s: State, step: Step, s': State)
    requires Next(k, s, step) == Some(s') && !Up(s.status) && Up(s'.status)
    ensures IsAnnounce(step)
  {
    if step.Create? {
      CreatorRaises(s, step.i, step.cm, s');
    } else {
      OthersDoNotRaise(k, s, step, s');
    }
  }

  ghost predicate NoneBeforeAnnounce(s: State) {
    forall i :: 0 <= i < |s.creators| ==> !s.creators[i].Booting? && !s.creators[i].Assigned?
  }

  lemma {:induction false} StaysDown(k: nat, s: State, steps: seq<Step>, t: State)
    requires Leads(k, s, steps, t) && !Up(s.status) && NoneBeforeAnnounce(s)
    requires NoBegin(steps)
    ensures !Up(t.status)
    decreases steps
  {
    if steps == [] {
    } else {
      var step, next := steps[0], Next(k, s, steps[0]).value;
      if step.Create? {
        CreatorRaises(s, step.i, step.cm, next);
      } else {
        OthersDoNotRaise(k, s, step, next);
      }
      StaysDown(k, next, steps[1..], t);
    }
  }

  ghost predicate NoBegin(steps: seq<Step>) {
    forall i :: 0 <= i < |steps| ==> !steps[i].Begin?
  }

  /** A pod that is STOPPING is not STARTING, RUNNING or PAUSED again before a new creation has begun. */
  ghost predicate StoppingIsFinal(k: nat) {
    forall s, steps, t ::
      Reachable(k, s) && s.status.Stopping? && Leads(k, s, steps, t) && NoBegin(steps) ==> !Up(t.status)
  }

  lemma OverlapRises(k: nat)
    requires k >= 2
    ensures !StoppingIsFinal(k)
  {
    var s0 := OverlapBegins(k);
    s0 := OverlapStarts(k, s0);
    var s := MachineExits(k, s0);
    var s1 := CreatorNext(s, 1, Assign).value;
    var t := CreatorNext(s1, 1, Announce).value;
    assert Leads(k, s, [], s);
    LeadsThen(k, s, [], s, Create(1, Assign), s1);
    var first := [] + [Create(1, Assign)];
    LeadsThen(k, s, first, s1, Create(1, Announce), t);
    assert NoBegin(first + [Create(1, Announce)]);
  }

  /** This holds exactly when at most one creation is in flight. */
  lemma StoppingIsFinalIff(k: nat)
    ensures StoppingIsFinal(k) <==> k <= 1
  {
    if k <= 1 {
      forall s, steps, t | Reachable(k, s) && s.status.Stopping? && Leads(k, s, steps, t) && NoBegin(steps)
        ensures !Up(t.status)
      {
        ReachableInv(k, s);
        StaysDown(k, s, steps, t);
      }
    } else {
      OverlapRises(k);
    }
  }

  // ---- who brings a stopping pod to its end ----

  /** A monitor that has still to settle the status, or a creation that is about to start one. */
  ghost predicate Someone(s: State) {
    || (exists j :: 0 <= j < |s.monitors| && Active(s.monitors[j]))
    || (exists i :: 0 <= i < |s.creators| && s.creators[i].Announced?)
  }

  /** A pod that is up or STOPPING has somebody who will bring it to STOPPED. */
  ghost predicate Attended(s: State) {
    Up(s.status) || s.status.Stopping? ==> Someone(s)
  }

  ghost predicate NoFailure(s: State) {
    forall i :: 0 <= i < |s.creators| ==> s.creators[i] != Setting(false)
  }

  predicate IsInitFailure(step: Step) {
    step.Create? && step.cm == InitDone(false)
  }

  ghost predicate NoInitFails(steps: seq<Step>) {
    forall i :: 0 <= i < |steps| ==> !IsInitFailure(steps[i])
  }

  lemma CreatorAttended(s: State, i: nat, m: CreatorMove, s': State)
    requires Attended(s) && NoFailure(s) && i < |s.creators| && CreatorNext(s, i, m) == Some(s') && m != InitDone(false)
    ensures Attended(s') && NoFailure(s')
  {
    match m
    case Announce => assert s'.creators[i].Announced?;
    case Monitor => assert Active(s'.monitors[|s.monitors|]);
    case _ =>
      assert s'.monitors == s.monitors;
      assert forall h :: 0 <= h < |s.creators| && s.creators[h].Announced? ==> s'.creators[h].Announced?;
  }

  lemma MonitorAttended(s: State, i: nat, m: MonitorMove, s': State)
    requires Attended(s) && i < |s.monitors| && MonitorNext(s, i, m) == Some(s')
    ensures Attended(s') && s'.creators == s.creators
  {
    assert forall j :: 0 <= j < |s.monitors| && j != i ==> s'.monitors[j] == s.monitors[j];
    if Active(s.monitors[i]) && (Up(s'.status) || s'.status.Stopping?) {
      assert Active(s'.monitors[i]);
    }
  }

  lemma OtherAttended(s: State, m: OtherMove, s': State)
    requires Attended(s) && OtherNext(s, m) == Some(s')
    ensures Attended(s') && s'.creators == s.creators
  {
    assert s'.monitors == s.monitors;
    assert Up(s'.status) || s'.status.Stopping? ==> Up(s.status) || s.status.Stopping?;
  }

  lemma BeginAttended(s: State, s': State)
    requires Attended(s) && NoFailure(s) && s' == s.(creators := s.creators + [Booting])
    ensures Attended(s') && NoFailure(s')
  {
    assert forall i :: 0 <= i < |s.creators| ==> s'.creators[i] == s.creators[i];
  }

  lemma StepAttended(k: nat, s: State, step: Step, s': State)
    requires Attended(s) && NoFailure(s) && Next(k, s, step) == Some(s') && !IsInitFailure(step)
    ensures Attended(s') && NoFailure(s')
  {
    match step
    case Begin => BeginAttended(s, s');
    case Create(i, m) => CreatorAttended(s, i, m, s');
    case Watch(i, m) => MonitorAttended(s, i, m, s');
    case Do(m) => OtherAttended(s, m, s');
  }

  lemma {:induction false} LeadsAttended(k: nat, s: State, steps: seq<Step>, t: State)
    requires Attended(s) && NoFailure(s) && Leads(k, s, steps, t) && NoInitFails(steps)
    ensures Attended(t)
    decreases steps
  {
    if steps == [] {
    } else {
      var next := Next(k, s, steps[0]).value;
      assert !IsInitFailure(steps[0]);
      StepAttended(k, s, steps[0], next);
      LeadsAttended(k, next, steps[1..], t);
    }
  }

  /** A creation has started its monitor, and the initialisation of its sandbox has failed. */
  lemma InitFails(k: nat) returns (s: State)
    ensures Reachable(k, s) && s == Fresh(Starting, true, [Setting(false)], [Spawned])
  {
    var s0 := Fresh(NoPod, false, [Booting], []);
    assert Leads(k, s0, [], s0);
    var s1 := s0.(creators := [Assigned], sandbox := true);
    assert s0.creators[0 := Assigned] == s1.creators;
    Then(k, s0, Create(0, Assign), s1);
    var s2 := s1.(creators := [Announced], status := Starting);
    assert s1.creators[0 := Announced] == s2.creators;
    Then(k, s1, Create(0, Announce), s2);
    var s3 := s2.(creators := [Initing], monitors := [Spawned]);
    assert s2.creators[0 := Initing] == s3.creators && s2.monitors + [Spawned] == s3.monitors;
    Then(k, s2, Create(0, Monitor), s3);
    s := s3.(creators := [Setting(false)]);
    assert s3.creators[0 := Setting(false)] == s.creators;
    Then(k, s3, Create(0, InitDone(false)), s);
  }

  /** The cleanup ends. */
  lemma CleanupEnds(k: nat, s: State) returns (s': State)
    requires Reachable(k, s) && s.monitors == [Cleaning] && s.status.Stopping? && s.creators == [Setting(false)]
    ensures Reachable(k, s') && s'.monitors == [Gone] && s'.creators == [Setting(false)]
  {
    var s1 := s.(monitors := [Closing], sandbox := false);
    assert s.monitors[0 := Closing] == s1.monitors;
    Then(k, s, Watch(0, Clear), s1);
    var s2 := s1.(monitors := [Putting], status := Stopped);
    assert s1.monitors[0 := Putting] == s2.monitors;
    Then(k, s1, Watch(0, Tag), s2);
    s' := s2.(monitors := [Gone], lock := Free, token := true, cleaned := true);
    assert s2.monitors[0 := Gone] == s'.monitors;
    Then(k, s2, Watch(0, Put), s');
  }

  /** The creation that failed says STOPPING when the cleanup of its machine is over: nobody is left. */
  lemma LateFailure(k: nat) returns (s: State)
    ensures Reachable(k, s) && s.status.Stopping? && s.creators == [Done] && s.monitors == [Gone]
  {
    var s0 := InitFails(k);
    s0 := MachineExits(k, s0);
    s0 := CleanupEnds(k, s0);
    s := s0.(creators := [Done], status := Stopping);
    assert s0.creators[0 := Done] == s.creators;
    Then(k, s0, Create(0, SetStatus), s);
  }

  /** `s` is reached by a run in which no initialisation of a sandbox fails, unless they may. */
  ghost predicate ReachableIf(k: nat, mayFail: bool, s: State) {
    exists init, steps :: IsInit(init) && Leads(k, init, steps, s) && (mayFail || NoInitFails(steps))
  }

  /** With any number of creations in flight, a STOPPING pod always has somebody left exactly when no initialisation may fail. */
  lemma AttendedIff(k: nat, mayFail: bool)
    ensures (forall s :: ReachableIf(k, mayFail, s) && s.status.Stopping? ==> Someone(s)) <==> !mayFail
  {
    if mayFail {
      var s := LateFailure(k);
      var init, steps :| IsInit(init) && Leads(k, init, steps, s);
      assert ReachableIf(k, true, s);
    } else {
      forall s | ReachableIf(k, mayFail, s) ensures Attended(s) {
        var init, steps :| IsInit(init) && Leads(k, init, steps, s) && NoInitFails(steps);
        assert init == Fresh(Running, true, [], [Spawned]) ==> Active(init.monitors[0]);
        LeadsAttended(k, init, steps, s);
      }
    }
  }

  // ---- the stop token ----

  /** The token is there from the first completed cleanup on, and not before. */
  predicate TokenOk(s: State) {
    if s.cleaned then s.token || s.held > 0 else !s.token && s.held == 0
  }

  lemma TokenStep(k: nat, s: State, step: Step, s': State)
    requires TokenOk(s) && Next(k, s, step) == Some(s')
    ensures TokenOk(s') && (s.cleaned ==> s'.cleaned)
  {
  }

  lemma {:induction false} TokenKept(k: nat, s: State, steps: seq<Step>, t: State)
    requires TokenOk(s) && Leads(k, s, steps, t)
    ensures TokenOk(t) && (s.cleaned ==> t.cleaned)
    decreases steps
  {
    if steps == [] {
    } else {
      var next := Next(k, s, steps[0]).value;
      TokenStep(k, s, steps[0], next);
      TokenKept(k, next, steps[1..], t);
    }
  }

  /**
   For any number of creations, cleanups and waiters: nobody gets a token before a cleanup has
   completed; afterwards channel and waiters together hold at least one, and the channel holds
   one whenever no waiter does.
   */
  lemma TokenNeverLost(k: nat, s: State)
    requires Reachable(k, s)
    ensures !s.cleaned ==> !s.token && s.held == 0
    ensures s.cleaned ==> (if s.token then 1 else 0) + s.held >= 1
    ensures s.cleaned && s.held == 0 ==> s.token
  {
    var init, steps :| IsInit(init) && Leads(k, init, steps, s);
    TokenKept(k, init, steps, s);
  }

  // ---- the object ----

  /** The fields of a pod that the life cycle works on; each method is one critical section. */
  class XPod {
    var status: Status
    var sandbox: bool
    var stopped: bool  // the stop channel, which has room for one

    constructor ()
      ensures status == NoPod && !sandbox && !stopped
    {
      status, sandbox, stopped := NoPod, false, false;
    }

    ghost predicate Shows(s: State)
      reads this
    {
      s.status == status && s.sandbox == sandbox && s.token == stopped
    }

    /** The locked part of `setPodInitStatus`. */
    method SetInitStatus(ok: bool)
      modifies this
      ensures forall s, i: nat :: old(Shows(s)) && i < |s.creators| && s.creators[i] == Setting(ok) ==>
                Shows(CreatorNext(s, i, SetStatus).value)
    {
      if ok {
        if status.Starting? {
          status := Running;
        }
      } else {
        status := Stopping;
      }
    }

    /** The check of `Pause`. */
    method BeginPause() returns (valid: bool)
      modifies this
      ensures forall s :: old(Shows(s)) ==>
                var next := OtherNext(s, Pause);
                (valid <==> next.Some?) && Shows(if valid then next.value else s)
    {
      valid := status.Running?;
      if valid {
        status := Paused;
      }
    }

    /** The check of `UnPause`. */
    method BeginUnpause() returns (valid: bool)
      modifies this
      ensures forall s :: old(Shows(s)) ==>
                var next := OtherNext(s, Unpause);
                (valid <==> next.Some?) && Shows(if valid then next.value else s)
    {
      valid := status.Paused?;
      if valid {
        status := Running;
      }
    }

    /** The roll back of a failed `Pause`. */
    method PauseFailed()
      modifies this
      ensures forall s :: old(Shows(s)) && s.pausing > 0 ==> Shows(OtherNext(s, PauseEnd(false)).value)
    {
      if status.Paused? {
        status := Running;
      }
    }

    /** The roll back of a failed `UnPause`. */
    method UnpauseFailed()
      modifies this
      ensures forall s :: old(Shows(s)) && s.unpausing > 0 ==> Shows(OtherNext(s, UnpauseEnd(false)).value)
    {
      if status.Running? {
        status := Paused;
      }
    }

    /** The check of `doStopPod`: whether to go on, and whether the caller gets an error. */
    method BeginStop() returns (go: bool, failed: bool)
      modifies this
      ensures forall s :: old(Shows(s)) && s.lock.Busy? ==>
                var next := OtherNext(s, Stop);
                (go <==> next.Some?) && Shows(if go then next.value else s)
      ensures failed <==> !go && !old(status).Stopping?
    {
      go := status.Running? || status.Starting?;
      failed := !go && !status.Stopping?;
      if go {
        status := Stopping;
      }
    }

    /** The first locked part of `cleanup`. */
    method EnterCleanup() returns (go: bool)
      modifies this
      ensures forall s, i: nat :: old(Shows(s)) && i < |s.monitors| && s.monitors[i].Locked? ==>
                var next := MonitorNext(s, i, Decide).value;
                Shows(next) && (go <==> next.monitors[i].Cleaning?)
    {
      go := !status.Stopped?;
      if go && !status.NoPod? {
        status := Stopping;
      }
    }

    /** The last locked part of `cleanup`. */
    method TagStopped()
      modifies this
      ensures forall s, i: nat :: old(Shows(s)) && i < |s.monitors| && s.monitors[i].Closing? ==>
                Shows(MonitorNext(s, i, Tag).value)
    {
      if !status.NoPod? {
        status := Stopped;
      }
    }

    /** The end of `cleanup`: a token into the channel, unless there is one. */
    method PutToken()
      modifies this
      ensures forall s, i: nat :: old(Shows(s)) && i < |s.monitors| && s.monitors[i].Putting? ==>
                Shows(MonitorNext(s, i, Put).value)
    {
      if !stopped {
        stopped := true;
      }
    }
  }
}
