/**
 The worker pool that creates containers in the background: a credit counter and a bounded
 channel behind one mutex. Requests and handlers are numbered; handler `h` is the goroutine
 started for request `h`. One step is one action between two points where others may run.
 */
module WorkerPool {
  import opened Basics

  /**
   `max` handlers at most, room for `cap` requests in the channel, and the names of the requests
   in the run. Requests with equal names are of one pod: the name of another pod is refused before.
   */
  datatype Config = Config(max: nat, cap: nat, names: seq<nat>) {
    const n: nat := |names|

    /** A pool is only made when the configured maximum is not 0; the channel size then gets a default. */
    predicate Valid() {
      max > 0 && cap > 0
    }
  }

  /** Where the goroutine that submits a request is. */
  datatype Sub =
    | Outside
    | Titled                   // its name reserved
    | Adding                   // in the pod's buffer table, its id not yet reserved
    | Reserved                 // about to take the lock
    | Locked                   // holds the lock
    | Spawning                 // took a credit, handler not yet started
    | Full                     // found the channel full
    | Leaving(accepted: bool)  // about to release the lock
    | Returned(accepted: bool)

  /** Where a handler is. */
  datatype Hand =
    | Unborn
    | Working(cb: nat)
    | Handled(cb: nat, ok: bool)  // creation returned, entry not yet removed
    | Idle                        // about to take the lock
    | Looking                     // holds the lock
    | Got(cb: nat)                // received a request, about to release the lock
    | Empty                       // found the channel empty
    | Counted                     // gave its credit back, about to release the lock
    | Gone

  datatype Owner = Free | Submitter(r: nat) | Handler(h: nat)

  /** Where an accepted request is; bookkeeping of the model. */
  datatype Place = Nowhere | InQueue | With(h: nat) | Finished

  datatype State = State(
    credits: nat,
    queue: seq<nat>,
    lock: Owner,
    sub: seq<Sub>,
    hand: seq<Hand>,
    buffers: set<nat>,   // the pods' buffer tables together
    reserved: set<nat>,  // requests whose ids are in the registry
    names: set<nat>,     // names in the registry
    rejected: set<nat>,  // requests whose ids the registry refused
    failed: set<nat>,    // requests whose creation failed
    calls: seq<nat>,     // creations, in order
    sent: seq<nat>,      // everything ever put into the channel
    taken: seq<nat>,     // everything ever received from it
    at: seq<Place>)

  datatype SubMove = TakeName(ok: bool) | Enter | ReserveOk | ReserveFail | Lock | Decide | Spawn | Drop | Unlock

  datatype HandMove = Create(ok: bool) | Remove | Acquire | Look | Count | Release

  datatype Step = SubStep(r: nat, sm: SubMove) | HandStep(h: nat, hm: HandMove)

  function Init(cfg: Config): State {
    State(cfg.max, [], Free, seq(cfg.n, _ => Outside), seq(cfg.n, _ => Unborn), {}, {}, {}, {}, {}, [], [], [],
          seq(cfg.n, _ => Nowhere))
  }

  predicate Shape(cfg: Config, s: State) {
    |s.sub| == |s.hand| == |s.at| == cfg.n
  }

  function SubNext(cfg: Config, s: State, r: nat, m: SubMove): Option<State>
    requires Shape(cfg, s) && r < cfg.n
  {
    match (m, s.sub[r])
    case (TakeName(ok), Outside) =>
      if ok then Some(s.(sub := s.sub[r := Titled], names := s.names + {cfg.names[r]}))
      else Some(s.(sub := s.sub[r := Returned(false)]))
    case (Enter, Titled) => Some(s.(sub := s.sub[r := Adding], buffers := s.buffers + {r}))
    case (ReserveOk, Adding) =>
      Some(s.(sub := s.sub[r := Reserved], reserved := s.reserved + {r}, names := s.names + {cfg.names[r]}))
    case (ReserveFail, Adding) =>
      Some(s.(sub := s.sub[r := Returned(false)], buffers := s.buffers - {r}, rejected := s.rejected + {r}))
    case (Lock, Reserved) => if s.lock.Free? then Some(s.(sub := s.sub[r := Locked], lock := Submitter(r))) else None
    case (Decide, Locked) => Some(Decided(cfg, s, r))
    case (Spawn, Spawning) =>
      Some(s.(sub := s.sub[r := Leaving(true)], hand := s.hand[r := Working(r)], at := s.at[r := With(r)]))
    case (Drop, Full) =>
      Some(s.(sub := s.sub[r := Leaving(false)], buffers := s.buffers - {r}, reserved := s.reserved - {r},
              names := s.names - {cfg.names[r]}))
    case (Unlock, Leaving(ok)) => Some(s.(sub := s.sub[r := Returned(ok)], lock := Free))
    case _ => None
  }

  /** A credit if there is one, else the channel, else refuse. */
  function Decided(cfg: Config, s: State, r: nat): State
    requires Shape(cfg, s) && r < cfg.n
  {
    if s.credits != 0 then s.(credits := s.credits - 1, sub := s.sub[r := Spawning])
    else if |s.queue| < cfg.cap then
      s.(queue := s.queue + [r], sent := s.sent + [r], sub := s.sub[r := Leaving(true)], at := s.at[r := InQueue])
    else s.(sub := s.sub[r := Full])
  }

  function HandNext(cfg: Config, s: State, h: nat, m: HandMove): Option<State>
    requires Shape(cfg, s) && h < cfg.n
  {
    match (m, s.hand[h])
    case (Create(ok), Working(cb)) => Some(s.(hand := s.hand[h := Handled(cb, ok)], calls := s.calls + [cb]))
    case (Remove, Handled(cb, ok)) =>
      if cb < cfg.n then Some(Removed(cfg, s.(at := s.at[cb := Finished]), h, cb, ok)) else None
    case (Acquire, Idle) => if s.lock.Free? then Some(s.(hand := s.hand[h := Looking], lock := Handler(h))) else None
    case (Look, Looking) =>
      if s.queue == [] then Some(s.(hand := s.hand[h := Empty]))
      else if s.queue[0] < cfg.n then Some(Taken(s.(at := s.at[s.queue[0] := With(h)]), h))
      else None
    case (Count, Empty) => Some(s.(hand := s.hand[h := Counted], credits := s.credits + 1))
    case (Release, Got(cb)) => Some(s.(hand := s.hand[h := Working(cb)], lock := Free))
    case (Release, Counted) => Some(s.(hand := s.hand[h := Gone], lock := Free))
    case _ => None
  }

  /** The entry goes, and with it id and name when creation failed. */
  function Removed(cfg: Config, s: State, h: nat, cb: nat, ok: bool): State
    requires h < |s.hand| && cb < cfg.n
  {
    s.(hand := s.hand[h := Idle], buffers := s.buffers - {cb},
       reserved := if ok then s.reserved else s.reserved - {cb},
       names := if ok then s.names else s.names - {cfg.names[cb]},
       failed := if ok then s.failed else s.failed + {cb})
  }

  function Taken(s: State, h: nat): State
    requires h < |s.hand| && s.queue != []
  {
    s.(hand := s.hand[h := Got(s.queue[0])], queue := s.queue[1..], taken := s.taken + [s.queue[0]])
  }

  function Next(cfg: Config, s: State, step: Step): Option<State>
    requires Shape(cfg, s)
  {
    match step
    case SubStep(r, m) => if r < cfg.n then SubNext(cfg, s, r, m) else None
    case HandStep(h, m) => if h < cfg.n then HandNext(cfg, s, h, m) else None
  }

  lemma NextShape(cfg: Config, s: State, step: Step)
    requires Shape(cfg, s) && Next(cfg, s, step).Some?
    ensures Shape(cfg, Next(cfg, s, step).value)
  {
  }

  /** `t` comes out of `s` by the steps of the schedule, in order. */
  ghost predicate Leads(cfg: Config, s: State, steps: seq<Step>, t: State)
    requires Shape(cfg, s)
    decreases steps
  {
    if steps == [] then s == t
    else
      var next := Next(cfg, s, steps[0]);
      next.Some? && (NextShape(cfg, s, steps[0]); Leads(cfg, next.value, steps[1..], t))
  }

  ghost predicate Reachable(cfg: Config, s: State) {
    exists steps :: Leads(cfg, Init(cfg), steps, s)
  }
}
