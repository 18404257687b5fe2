/**
 The life cycle of a pod: its status, its sandbox and the stop token, driven at the same time
 by creation, monitors of the virtual machine, pause and unpause, stop and remove, and
 waiters. One step is one critical section or one unlocked write.
 */
module PodLifecycle {
  import opened Basics
  datatype Status = NoPod | Starting | Running | Paused | Stopped | Stopping | Error

  predicate Up(st: Status) {
    st.Starting? || st.Running? || st.Paused?
  }

  /** A goroutine inside `createSandbox`. */
  datatype Creator =
    | Booting            // starting the virtual machine
    | Assigned           // wrote the sandbox field
    | Announced          // wrote status STARTING
    | Initing            // started the monitor, waits for the sandbox to be initialised
    | Setting(ok: bool)  // about to set the status from the result
    | Done

  /** A goroutine inside `waitVMStop` and `cleanup`. */
  datatype Monitor =
    | Spawned
    | Waiting   // for the virtual machine to exit
    | WantLock
    | Locked    // holds the resource lock
    | Cleaning  // status is settled, sandbox not yet cleared
    | Closing   // sandbox cleared
    | Putting   // status is STOPPED or NONE, token not yet put
    | Gone

  /** Who holds the resource lock: `Shutting` is a stop that has passed its check. */
  datatype Owner = Free | Cleaner(m: nat) | Busy | Shutting

  datatype State = State(
    status: Status,
    sandbox: bool,
    creators: seq<Creator>,
    monitors: seq<Monitor>,
    lock: Owner,
    pausing: nat,    // pause calls between their two critical sections
    unpausing: nat,
    token: bool,     // the channel, which has room for one
    held: nat,       // tokens in the hands of waiters
    cleaned: bool)   // some cleanup has put its token

  datatype CreatorMove = BootFail | Assign | Announce | Monitor | InitDone(ok: bool) | SetStatus

  datatype MonitorMove = Check | VmExit | Lock | Decide | Clear | Tag | Put

  datatype OtherMove =
    | Pause | PauseEnd(ok: bool) | Unpause | UnpauseEnd(ok: bool)
    | TakeLock | Stop | Remove | Fail | DropLock
    | TakeToken | PutToken

  datatype Step = Begin | Create(i: nat, cm: CreatorMove) | Watch(i: nat, mm: MonitorMove) | Do(om: OtherMove)

  // ---- status changes, as the critical sections make them ----

  function AfterInit(st: Status, ok: bool): Status {
    if !ok then Stopping else if st.Starting? then Running else st
  }

  function AfterEnter(st: Status): Status {
    if st.NoPod? then st else Stopping
  }

  function AfterTag(st: Status): Status {
    if st.NoPod? then st else Stopped
  }

  // ---- steps ----

  function InFlight(cs: seq<Creator>): nat {
    if cs == [] then 0 else (if cs[0].Done? then 0 else 1) + InFlight(cs[1..])
  }

  function CreatorNext(s: State, i: nat, m: CreatorMove): Option<State>
    requires i < |s.creators|
  {
    match (m, s.creators[i])
    case (BootFail, Booting) => Some(s.(creators := s.creators[i := Done]))
    case (Assign, Booting) => Some(s.(creators := s.creators[i := Assigned], sandbox := true))
    case (Announce, Assigned) => Some(s.(creators := s.creators[i := Announced], status := Starting))
    case (Monitor, Announced) => Some(s.(creators := s.creators[i := Initing], monitors := s.monitors + [Spawned]))
    case (InitDone(ok), Initing) =>
      Some(s.(creators := s.creators[i := if ok && s.status.Running? then Done else Setting(ok)]))
    case (SetStatus, Setting(ok)) =>
      Some(s.(creators := s.creators[i := Done], status := AfterInit(s.status, ok)))
    case _ => None
  }

  function MonitorNext(s: State, i: nat, m: MonitorMove): Option<State>
    requires i < |s.monitors|
  {
    match (m, s.monitors[i])
    case (Check, Spawned) => Some(s.(monitors := s.monitors[i := if s.status.Stopped? then Gone else Waiting]))
    case (VmExit, Waiting) => Some(s.(monitors := s.monitors[i := WantLock]))
    case (Lock, WantLock) =>
      if s.lock.Free? then Some(s.(monitors := s.monitors[i := Locked], lock := Cleaner(i))) else None
    case (Decide, Locked) =>
      if s.status.Stopped? then Some(s.(monitors := s.monitors[i := Gone], lock := Free))
      else Some(s.(monitors := s.monitors[i := Cleaning], status := AfterEnter(s.status)))
    case (Clear, Cleaning) => Some(s.(monitors := s.monitors[i := Closing], sandbox := false))
    case (Tag, Closing) => Some(s.(monitors := s.monitors[i := Putting], status := AfterTag(s.status)))
    case (Put, Putting) => Some(s.(monitors := s.monitors[i := Gone], lock := Free, token := true, cleaned := true))
    case _ => None
  }

  function OtherNext(s: State, m: OtherMove): Option<State> {
    match m
    case Pause => if s.status.Running? then Some(s.(status := Paused, pausing := s.pausing + 1)) else None
    case PauseEnd(ok) =>
      if s.pausing == 0 then None
      else Some(s.(pausing := s.pausing - 1, status := if !ok && s.status.Paused? then Running else s.status))
    case Unpause => if s.status.Paused? then Some(s.(status := Running, unpausing := s.unpausing + 1)) else None
    case UnpauseEnd(ok) =>
      if s.unpausing == 0 then None
      else Some(s.(unpausing := s.unpausing - 1, status := if !ok && s.status.Running? then Paused else s.status))
    case TakeLock => if s.lock.Free? then Some(s.(lock := Busy)) else None
    case Stop =>
      if s.lock.Busy? && (s.status.Running? || s.status.Starting?) then Some(s.(status := Stopping, lock := Shutting))
      else None
    case Remove => if s.lock.Busy? then Some(s.(status := NoPod)) else None
    case Fail => if s.lock.Busy? then Some(s.(status := Error)) else None
    case DropLock => if s.lock.Busy? || s.lock.Shutting? then Some(s.(lock := Free)) else None
    case TakeToken => if s.token then Some(s.(token := false, held := s.held + 1)) else None
    case PutToken => if s.held == 0 then None else Some(s.(held := s.held - 1, token := true))
  }

  /** At most `k` creations run at a time. */
  function Next(k: nat, s: State, step: Step): Option<State> {
    match step
    case Begin =>
      if s.status.Stopped? && InFlight(s.creators) < k then Some(s.(creators := s.creators + [Booting])) else None
    case Create(i, m) => if i < |s.creators| then CreatorNext(s, i, m) else None
    case Watch(i, m) => if i < |s.monitors| then MonitorNext(s, i, m) else None
    case Do(m) => OtherNext(s, m)
  }

  function Fresh(status: Status, sandbox: bool, creators: seq<Creator>, monitors: seq<Monitor>): State {
    State(status, sandbox, creators, monitors, Free, 0, 0, false, 0, false)
  }

  /** A pod being created, one found stopped at start-up, or one reconnected to its running sandbox. */
  predicate IsInit(s: State) {
    || s == Fresh(NoPod, false, [Booting], [])
    || s == Fresh(Stopped, false, [], [])
    || s == Fresh(Running, true, [], [Spawned])
  }

  ghost predicate Leads(k: nat, s: State, steps: seq<Step>, t: State)
    decreases steps
  {
    if steps == [] then s == t
    else
      var next := Next(k, s, steps[0]);
      next.Some? && Leads(k, next.value, steps[1..], t)
  }

  ghost predicate Reachable(k: nat, s: State) {
    exists init, steps :: IsInit(init) && Leads(k, init, steps, s)
  }
}
