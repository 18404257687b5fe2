/** What the worker pool promises, over every run. */
module WorkerPoolTheorems {
  import opened Basics
  import opened WorkerPool
  import opened WorkerPoolSafety

  // ---- safety ----

  /**
   Whenever the lock is free, credits and live handlers add up to the maximum; while anything
   is queued there is no credit left, so every handler is alive and looks at the channel
   before it ends.
   */
  lemma CreditsBalance(cfg: Config, s: State)
    requires Reachable(cfg, s)
    ensures LockOk(cfg, s) && s.credits <= cfg.max
    ensures s.lock.Free? ==> s.credits + Live(s.hand) == cfg.max
    ensures s.queue != [] ==> s.credits == 0
    ensures s.lock.Free? && s.queue != [] ==> Live(s.hand) == cfg.max
  {
    ReachableInv(cfg, s);
    if s.lock.Handler? {
      LiveAtLeast(s.hand, s.lock.h);
    }
  }

  lemma {:induction false} LiveAtLeast(hs: seq<Hand>, h: nat)
    requires h < |hs|
    ensures Live(hs) >= Weight(hs[h])
  {
    if h == 0 {
    } else {
      LiveAtLeast(hs[1..], h - 1);
    }
  }

  ghost predicate Held(s: State, r: nat) {
    exists h :: 0 <= h < |s.hand| && Holds(s.hand[h], r)
  }

  /** An accepted request is in exactly one of channel, one handler, or finished; any other request in none. */
  lemma OnePlace(cfg: Config, s: State, r: nat)
    requires Reachable(cfg, s) && r < cfg.n
    ensures Shape(cfg, s)
    ensures Accepted(s.sub[r]) <==> r in s.queue || Held(s, r) || r in s.calls
    ensures !(r in s.queue && Held(s, r)) && !(r in s.queue && r in s.calls)
    ensures forall h: nat :: h < cfg.n && Holds(s.hand[h], r) && r in s.calls ==> s.hand[h].Handled?
    ensures forall h: nat, k: nat :: h < cfg.n && k < cfg.n && Holds(s.hand[h], r) && Holds(s.hand[k], r) ==> h == k
  {
    ReachableInv(cfg, s);
    assert RequestOk(cfg, s, r);
    forall h: nat | h < cfg.n && Holds(s.hand[h], r) ensures s.at[r] == With(h) {
      assert HandlerOk(cfg, s, h);
    }
  }

  /** No request is created twice or queued twice, and the channel is first in, first out. */
  lemma HandledOnce(cfg: Config, s: State)
    requires Reachable(cfg, s)
    ensures NoDup(s.calls) && NoDup(s.queue) && s.sent == s.taken + s.queue && |s.queue| <= cfg.cap
  {
    ReachableInv(cfg, s);
  }

  /** The pods' buffer tables hold exactly the requests being submitted, queued or handled. */
  lemma BuffersExact(cfg: Config, s: State, r: nat)
    requires Reachable(cfg, s) && r < cfg.n
    ensures Shape(cfg, s)
    ensures r in s.buffers <==> Submitting(s.sub[r]) || r in s.queue || Held(s, r)
  {
    ReachableInv(cfg, s);
    assert RequestOk(cfg, s, r);
    forall h: nat | h < cfg.n && Holds(s.hand[h], r) ensures s.at[r] == With(h) {
      assert HandlerOk(cfg, s, h);
    }
  }

  /** The request is under way, was created, or was refused by the registry. */
  predicate KeepsName(s: State, r: nat)
    requires r < |s.sub|
  {
    s.sub[r].Titled? || Submitting(s.sub[r]) || r in s.rejected || (Accepted(s.sub[r]) && r !in s.failed)
  }

  /**
   A name is in the registry only if some request with that name is under way, was created, or
   had its id refused; a name that one request alone has, exactly then.
   */
  lemma NamesExact(cfg: Config, s: State, r: nat)
    requires Reachable(cfg, s) && r < cfg.n
    ensures Shape(cfg, s)
    ensures cfg.names[r] in s.names ==> exists q: nat :: q < cfg.n && cfg.names[q] == cfg.names[r] && KeepsName(s, q)
    ensures OwnName(cfg, r) ==> (cfg.names[r] in s.names <==> KeepsName(s, r))
  {
    ReachableInv(cfg, s);
    forall q: nat | q < cfg.n ensures HasName(cfg, s, q) <==> KeepsName(s, q) { assert RequestOk(cfg, s, q); }
    assert NameOk(cfg, s, r);
    if cfg.names[r] in s.names {
      var q: nat :| q < cfg.n && cfg.names[q] == cfg.names[r] && HasName(cfg, s, q);
      assert KeepsName(s, q);
    }
  }

  /** A refused request leaves nothing behind but its name, and that, if it alone has it, exactly when the registry refused its id. */
  lemma RefusedLeavesNothing(cfg: Config, s: State, r: nat)
    requires Reachable(cfg, s) && r < cfg.n && |s.sub| == cfg.n
    requires (s.sub[r].Leaving? || s.sub[r].Returned?) && !s.sub[r].accepted
    ensures r !in s.buffers && r !in s.reserved && r !in s.queue && r !in s.calls && !Held(s, r)
    ensures cfg.names[r] in s.names ==> exists q: nat :: q < cfg.n && cfg.names[q] == cfg.names[r] && KeepsName(s, q)
    ensures KeepsName(s, r) <==> r in s.rejected
    ensures OwnName(cfg, r) ==> (cfg.names[r] in s.names <==> r in s.rejected)
  {
    NamesExact(cfg, s, r);
    OnePlace(cfg, s, r);
    ReachableInv(cfg, s);
    assert RequestOk(cfg, s, r);
  }

  // ---- names that requests share ----

  lemma {:induction false} LeadsThen(cfg: Config, s: State, steps: seq<Step>, t: State, step: Step, t': State)
    requires Shape(cfg, s) && Shape(cfg, t) && Leads(cfg, s, steps, t) && Next(cfg, t, step) == Some(t')
    ensures Leads(cfg, s, steps + [step], t')
    decreases steps
  {
    if steps == [] {
      assert [step][1..] == [];
    } else {
      assert (steps + [step])[1..] == steps[1..] + [step];
      LeadsThen(cfg, Next(cfg, s, steps[0]).value, steps[1..], t, step, t');
    }
  }

  lemma Then(cfg: Config, s: State, step: Step) returns (s': State)
    requires Reachable(cfg, s) && Shape(cfg, s) && Next(cfg, s, step).Some?
    ensures Reachable(cfg, s') && Shape(cfg, s') && Next(cfg, s, step) == Some(s')
  {
    s' := Next(cfg, s, step).value;
    var steps :| Leads(cfg, Init(cfg), steps, s);
    LeadsThen(cfg, Init(cfg), steps, s, step, s');
  }

  /** A request takes its name and its id, and is about to take the lock. */
  lemma Reserves(cfg: Config, s0: State, r: nat) returns (s: State)
    requires Reachable(cfg, s0) && Shape(cfg, s0) && r < cfg.n && s0.sub[r].Outside?
    ensures Reachable(cfg, s) && Shape(cfg, s) && s.sub == s0.sub[r := Reserved]
    ensures s.lock == s0.lock && s.credits == s0.credits && s.hand == s0.hand
  {
    s := Then(cfg, s0, SubStep(r, TakeName(true)));
    s := Then(cfg, s, SubStep(r, Enter));
    s := Then(cfg, s, SubStep(r, ReserveOk));
  }

  /** It takes a credit, and its creation fails. */
  lemma FailsToCreate(cfg: Config, s0: State, r: nat) returns (s: State)
    requires Reachable(cfg, s0) && Shape(cfg, s0) && r < cfg.n && s0.sub[r].Reserved?
    requires s0.lock.Free? && s0.credits > 0
    ensures Reachable(cfg, s) && Shape(cfg, s) && cfg.names[r] !in s.names
    ensures forall q: nat :: q < cfg.n && q != r ==> s.sub[q] == s0.sub[q]
  {
    s := Then(cfg, s0, SubStep(r, Lock));
    s := Then(cfg, s, SubStep(r, Decide));
    s := Then(cfg, s, SubStep(r, Spawn));
    s := Then(cfg, s, HandStep(r, Create(false)));
    s := Then(cfg, s, HandStep(r, Remove));
  }

  /** Of two requests with one name, one fails and takes the other's name out of the registry. */
  lemma SharedNameIsLost(cfg: Config, a: nat, b: nat) returns (s: State)
    requires cfg.Valid() && a < cfg.n && b < cfg.n && a != b && cfg.names[a] == cfg.names[b]
    ensures Reachable(cfg, s) && Shape(cfg, s) && s.sub[a].Reserved? && cfg.names[a] !in s.names
  {
    assert Leads(cfg, Init(cfg), [], Init(cfg));
    s := Reserves(cfg, Init(cfg), a);
    s := Reserves(cfg, s, b);
    s := FailsToCreate(cfg, s, b);
  }

  /** In every run, every request under way has its name in the registry. */
  ghost predicate NamesHold(cfg: Config) {
    forall s, r: nat :: Reachable(cfg, s) && Shape(cfg, s) && r < cfg.n && KeepsName(s, r) ==> cfg.names[r] in s.names
  }

  /** This is so exactly when no two requests have the same name. */
  lemma NamesHoldIff(cfg: Config)
    requires cfg.Valid()
    ensures NamesHold(cfg) <==> NoDup(cfg.names)
  {
    if NoDup(cfg.names) {
      forall s, r: nat | Reachable(cfg, s) && Shape(cfg, s) && r < cfg.n && KeepsName(s, r) ensures cfg.names[r] in s.names {
        NamesExact(cfg, s, r);
      }
    } else {
      var a, b :| 0 <= a < b < |cfg.names| && cfg.names[a] == cfg.names[b];
      var s := SharedNameIsLost(cfg, a, b);
    }
  }

  /** While the lock is held, only its owner changes the counter and the channel. */
  lemma LockIsolates(cfg: Config, s: State, step: Step, s': State)
    requires Reachable(cfg, s) && Shape(cfg, s) && Next(cfg, s, step) == Some(s')
    requires s'.credits != s.credits || s'.queue != s.queue
    ensures match step
            case SubStep(r, _) => s.lock == Submitter(r)
            case HandStep(h, _) => s.lock == Handler(h)
  {
    ReachableInv(cfg, s);
  }

  // ---- progress ----

  function SubRank(x: Sub): nat {
    match x
    case Outside => 32
    case Titled => 31
    case Adding => 30
    case Reserved => 29
    case Locked => 28
    case Spawning => 27
    case Full => 2
    case Leaving(_) => 1
    case Returned(_) => 0
  }

  function HandRank(x: Hand): nat {
    match x
    case Unborn => 0
    case Got(_) => 8
    case Working(_) => 7
    case Handled(_, _) => 6
    case Idle => 5
    case Looking => 4
    case Empty => 3
    case Counted => 2
    case Gone => 0
  }

  function Sum<T>(xs: seq<T>, rank: T -> nat): nat {
    if xs == [] then 0 else rank(xs[0]) + Sum(xs[1..], rank)
  }

  lemma {:induction false} SumUpdate<T>(xs: seq<T>, rank: T -> nat, i: nat, x: T)
    requires i < |xs|
    ensures Sum(xs[i := x], rank) + rank(xs[i]) == Sum(xs, rank) + rank(x)
  {
    if i == 0 {
      assert xs[0 := x][1..] == xs[1..];
    } else {
      assert xs[i := x][1..] == xs[1..][i - 1 := x];
      SumUpdate(xs[1..], rank, i - 1, x);
    }
  }

  function Measure(s: State): nat {
    Sum(s.sub, SubRank) + 8 * |s.queue| + Sum(s.hand, HandRank)
  }

  lemma SubDecreases(cfg: Config, s: State, r: nat, m: SubMove, s': State)
    requires Shape(cfg, s) && r < cfg.n && RequestOk(cfg, s, r) && SubNext(cfg, s, r, m) == Some(s')
    ensures Measure(s') < Measure(s)
  {
    SumUpdate(s.sub, SubRank, r, s'.sub[r]);
    assert s'.sub == s.sub[r := s'.sub[r]];
    if m.Spawn? { SumUpdate(s.hand, HandRank, r, Working(r)); }
  }

  lemma HandDecreases(cfg: Config, s: State, h: nat, m: HandMove, s': State)
    requires Shape(cfg, s) && h < cfg.n && HandNext(cfg, s, h, m) == Some(s')
    ensures Measure(s') < Measure(s)
  {
    SumUpdate(s.hand, HandRank, h, s'.hand[h]);
    assert s'.hand == s.hand[h := s'.hand[h]];
  }

  /** Every run is finite: each step makes the measure smaller. */
  lemma {:induction false} RunsEnd(cfg: Config, s: State, steps: seq<Step>, t: State)
    requires Inv(cfg, s) && Leads(cfg, s, steps, t)
    ensures |steps| + Measure(t) <= Measure(s)
    decreases steps
  {
    if steps == [] {
    } else {
      var next := Next(cfg, s, steps[0]).value;
      StepInv(cfg, s, steps[0], next);
      match steps[0] {
        case SubStep(r, m) =>
          assert RequestOk(cfg, s, r);
          SubDecreases(cfg, s, r, m, next);
        case HandStep(h, m) => HandDecreases(cfg, s, h, m, next);
      }
      RunsEnd(cfg, next, steps[1..], t);
    }
  }

  /** Nobody is submitting and no handler is alive. */
  ghost predicate Quiet(cfg: Config, s: State)
    requires Shape(cfg, s)
  {
    && (forall r :: 0 <= r < cfg.n ==> s.sub[r].Outside? || s.sub[r].Returned?)
    && (forall h :: 0 <= h < cfg.n ==> s.hand[h].Unborn? || s.hand[h].Gone?)
  }

  predicate IsNew(step: Step) {
    step.SubStep? && step.sm.TakeName?
  }

  /** As long as something is going on, it can go on without new requests. */
  lemma NeverStuck(cfg: Config, s: State) returns (step: Step)
    requires Reachable(cfg, s) && Shape(cfg, s) && !Quiet(cfg, s)
    ensures !IsNew(step) && Next(cfg, s, step).Some?
  {
    ReachableInv(cfg, s);
    match s.lock
    case Submitter(r) =>
      step := SubStep(r, match s.sub[r] case Locked => Decide case Spawning => Spawn case Full => Drop case _ => Unlock);
    case Handler(h) =>
      step := HandStep(h, match s.hand[h] case Looking => Look case Empty => Count case _ => Release);
    case Free =>
      if r :| 0 <= r < cfg.n && !s.sub[r].Outside? && !s.sub[r].Returned? {
        step := SubStep(r, match s.sub[r] case Titled => Enter case Adding => ReserveOk case _ => Lock);
      } else {
        var h :| 0 <= h < cfg.n && !s.hand[h].Unborn? && !s.hand[h].Gone?;
        assert HandlerOk(cfg, s, h);
        if s.hand[h].Handled? { assert Holds(s.hand[h], s.hand[h].cb); }
        step := HandStep(h, match s.hand[h] case Working(_) => Create(true) case Handled(_, _) => Remove case _ => Acquire);
      }
  }

  lemma {:induction false} LiveQuiet(hs: seq<Hand>)
    requires forall h :: 0 <= h < |hs| ==> Weight(hs[h]) == 0
    ensures Live(hs) == 0
  {
    if hs == [] {
    } else {
      LiveQuiet(hs[1..]);
    }
  }

  /**
   No work is stranded: when everything has come to rest, all credits are back, the channel
   and the buffer tables are empty, and every accepted request was created exactly once.
   */
  lemma RestComplete(cfg: Config, s: State)
    requires cfg.Valid() && Reachable(cfg, s) && Shape(cfg, s) && Quiet(cfg, s)
    ensures s.lock.Free? && s.credits == cfg.max && s.queue == [] && NoDup(s.calls)
    ensures forall r: nat :: r < cfg.n ==> r !in s.buffers && (r in s.calls <==> s.sub[r] == Sub.Returned(true))
  {
    ReachableInv(cfg, s);
    LiveQuiet(s.hand);
    assert s.lock.Submitter? ==> SubInside(s.sub[s.lock.r]);
    assert s.lock.Handler? ==> HandInside(s.hand[s.lock.h]);
    forall r: nat | r < cfg.n ensures r !in s.buffers && (r in s.calls <==> s.sub[r] == Sub.Returned(true)) {
      assert RequestOk(cfg, s, r);
    }
  }

  // ---- the object ----

  datatype Outcome = Started | Queued | Dropped

  ghost predicate CanLook(cfg: Config, s: State, h: nat)
    requires Shape(cfg, s)
  {
    h < cfg.n && s.hand[h].Looking? && forall i :: 0 <= i < |s.queue| ==> s.queue[i] < cfg.n
  }

  /** The pool's two fields; each method is one critical section. */
  class Buffer {
    var goroutinesLimit: nat
    var ch: seq<nat>
    const cap: nat

    constructor (max: nat, size: nat)
      ensures goroutinesLimit == max && ch == [] && cap == if size == 0 then 1024 else size
    {
      goroutinesLimit, ch, cap := max, [], if size == 0 then 1024 else size;
    }

    /** A pool in the state of the machine, in the eyes of the lock's owner. */
    ghost predicate Shows(cfg: Config, s: State)
      reads this
    {
      Shape(cfg, s) && cfg.cap == cap && s.credits == goroutinesLimit && s.queue == ch
    }

    /** The locked part of submitting request `cb`. */
    method Submit(cb: nat) returns (o: Outcome)
      modifies this
      ensures forall cfg, s :: old(Shows(cfg, s)) && cb < cfg.n ==>
                var t := Decided(cfg, s, cb);
                && Shows(cfg, t)
                && o == match t.sub[cb] case Spawning => Started case Full => Dropped case _ => Queued
    {
      if goroutinesLimit != 0 {
        goroutinesLimit := goroutinesLimit - 1;
        return Started;
      }
      if |ch| < cap {
        ch := ch + [cb];
        return Queued;
      }
      return Dropped;
    }

    /** The locked part of a handler's turn: the next request, or the handler's end. */
    method NextOrRetire() returns (cb: Option<nat>)
      modifies this
      ensures forall cfg, s, h: nat :: old(Shows(cfg, s)) && CanLook(cfg, s, h) ==>
                var t := HandNext(cfg, s, h, Look).value;
                if t.hand[h].Got? then cb == Some(t.hand[h].cb) && Shows(cfg, t)
                else cb.None? && Shows(cfg, HandNext(cfg, t, h, Count).value)
    {
      if ch != [] {
        cb := Some(ch[0]);
        ch := ch[1..];
      } else {
        cb := None;
        goroutinesLimit := goroutinesLimit + 1;
      }
    }
  }
}
