/** What every step of the worker pool keeps. */
module WorkerPoolSafety {
  import opened Basics
  import opened WorkerPool

  // ---- vocabulary ----

  predicate Accepted(x: Sub) {
    (x.Leaving? || x.Returned?) && x.accepted
  }

  predicate Submitting(x: Sub) {
    x.Adding? || x.Reserved? || x.Locked? || x.Spawning? || x.Full?
  }

  predicate Named(x: Sub) {
    x.Reserved? || x.Locked? || x.Spawning? || x.Full?
  }

  predicate SubInside(x: Sub) {
    x.Locked? || x.Spawning? || x.Full? || x.Leaving?
  }

  predicate HandInside(x: Hand) {
    x.Looking? || x.Got? || x.Empty? || x.Counted?
  }

  predicate Holds(x: Hand, cb: nat) {
    (x.Working? || x.Handled? || x.Got?) && x.cb == cb
  }

  function Weight(x: Hand): nat {
    if x.Unborn? || x.Gone? then 0 else 1
  }

  /** The number of live handlers. */
  function Live(hs: seq<Hand>): nat {
    if hs == [] then 0 else Weight(hs[0]) + Live(hs[1..])
  }

  // ---- the invariant ----

  /** Exactly the lock's owner is inside the critical section. */
  ghost predicate LockOk(cfg: Config, s: State) {
    && Shape(cfg, s)
    && (s.lock.Submitter? ==> s.lock.r < cfg.n)
    && (s.lock.Handler? ==> s.lock.h < cfg.n)
    && (forall r {:trigger s.sub[r]} :: 0 <= r < cfg.n ==> (s.lock == Submitter(r) <==> SubInside(s.sub[r])))
    && (forall h {:trigger s.hand[h]} :: 0 <= h < cfg.n ==> (s.lock == Handler(h) <==> HandInside(s.hand[h])))
  }

  /** A credit taken for a handler that has not started yet. */
  function Promised(cfg: Config, s: State): nat
    requires LockOk(cfg, s)
  {
    if s.lock.Submitter? && s.sub[s.lock.r].Spawning? then 1 else 0
  }

  /** A credit given back by a handler that has not ended yet. */
  function Returned(cfg: Config, s: State): nat
    requires LockOk(cfg, s)
  {
    if s.lock.Handler? && s.hand[s.lock.h].Counted? then 1 else 0
  }

  ghost predicate CreditOk(cfg: Config, s: State)
    requires LockOk(cfg, s)
  {
    s.credits + Live(s.hand) + Promised(cfg, s) == cfg.max + Returned(cfg, s)
  }

  ghost predicate QueueOk(cfg: Config, s: State)
    requires LockOk(cfg, s)
  {
    && |s.queue| <= cfg.cap && NoDup(s.queue) && NoDup(s.calls)
    && (forall i :: 0 <= i < |s.queue| ==> s.queue[i] < cfg.n)
    && s.sent == s.taken + s.queue
    && (s.queue != [] ==> s.credits == 0)
    && (s.lock.Handler? && (s.hand[s.lock.h].Empty? || s.hand[s.lock.h].Counted?) ==> s.queue == [])
  }

  /** Request `r` is in the one place the bookkeeping says, and the tables agree. */
  ghost predicate RequestOk(cfg: Config, s: State, r: nat)
    requires Shape(cfg, s) && r < cfg.n
  {
    && (s.at[r].Nowhere? <==> !Accepted(s.sub[r]))
    && (r in s.queue <==> s.at[r].InQueue?)
    && (s.at[r].With? ==> s.at[r].h < cfg.n && Holds(s.hand[s.at[r].h], r))
    && (r in s.calls <==> s.at[r].Finished? || (s.at[r].With? && s.hand[s.at[r].h].Handled?))
    && (r in s.buffers <==> Submitting(s.sub[r]) || s.at[r].InQueue? || s.at[r].With?)
    && (r in s.failed ==> s.at[r].Finished?)
    && (r in s.reserved <==>
        Named(s.sub[r]) || s.at[r].InQueue? || s.at[r].With? || (s.at[r].Finished? && r !in s.failed))
    && (!s.hand[r].Unborn? ==> Accepted(s.sub[r]))
  }

  /** No other request has the name. */
  ghost predicate OwnName(cfg: Config, r: nat)
    requires r < cfg.n
  {
    forall q: nat :: q < cfg.n && q != r ==> cfg.names[q] != cfg.names[r]
  }

  ghost predicate HasName(cfg: Config, s: State, r: nat)
    requires Shape(cfg, s) && r < cfg.n
  {
    || s.sub[r].Titled? || Submitting(s.sub[r]) || r in s.rejected || s.at[r].InQueue? || s.at[r].With?
    || (s.at[r].Finished? && r !in s.failed)
  }

  ghost predicate NameOk(cfg: Config, s: State, r: nat)
    requires Shape(cfg, s) && r < cfg.n
  {
    && (r in s.rejected ==> s.sub[r] == Sub.Returned(false))
    && (OwnName(cfg, r) ==> (cfg.names[r] in s.names <==> HasName(cfg, s, r)))
  }

  /** Some request with the name has it. */
  ghost predicate Used(cfg: Config, s: State, name: nat)
    requires Shape(cfg, s)
  {
    exists q: nat :: q < cfg.n && cfg.names[q] == name && HasName(cfg, s, q)
  }

  ghost predicate HandlerOk(cfg: Config, s: State, h: nat)
    requires Shape(cfg, s) && h < cfg.n
  {
    forall cb: nat :: Holds(s.hand[h], cb) ==> cb < cfg.n && s.at[cb] == With(h)
  }

  ghost predicate Inv(cfg: Config, s: State) {
    && LockOk(cfg, s) && CreditOk(cfg, s) && QueueOk(cfg, s)
    && (forall r: nat {:trigger RequestOk(cfg, s, r)} :: r < cfg.n ==> RequestOk(cfg, s, r))
    && (forall h: nat {:trigger HandlerOk(cfg, s, h)} :: h < cfg.n ==> HandlerOk(cfg, s, h))
    && (forall r: nat {:trigger NameOk(cfg, s, r)} :: r < cfg.n ==> NameOk(cfg, s, r))
    && (forall name :: name in s.names ==> Used(cfg, s, name))
  }

  // ---- the start ----

  lemma {:induction false} LiveNone(hs: seq<Hand>)
    requires forall i :: 0 <= i < |hs| ==> hs[i].Unborn?
    ensures Live(hs) == 0
  {
    if hs == [] {
    } else {
      LiveNone(hs[1..]);
    }
  }

  lemma InitInv(cfg: Config)
    ensures Inv(cfg, Init(cfg))
  {
    var s := Init(cfg);
    LiveNone(s.hand);
    forall r: nat | r < cfg.n ensures RequestOk(cfg, s, r) && HandlerOk(cfg, s, r) && NameOk(cfg, s, r) {
      assert s.sub[r] == Outside && s.hand[r] == Unborn && s.at[r] == Nowhere;
    }
  }

  // ---- one step ----

  lemma {:induction false} LiveUpdate(hs: seq<Hand>, i: nat, x: Hand)
    requires i < |hs|
    ensures Live(hs[i := x]) + Weight(hs[i]) == Live(hs) + Weight(x)
  {
    if i == 0 {
      assert hs[0 := x][1..] == hs[1..];
    } else {
      assert hs[i := x][1..] == hs[1..][i - 1 := x];
      LiveUpdate(hs[1..], i - 1, x);
    }
  }

  lemma SubLock(cfg: Config, s: State, r: nat, m: SubMove, s': State)
    requires LockOk(cfg, s) && r < cfg.n && SubNext(cfg, s, r, m) == Some(s')
    ensures LockOk(cfg, s')
  {
  }

  lemma HandLock(cfg: Config, s: State, h: nat, m: HandMove, s': State)
    requires LockOk(cfg, s) && h < cfg.n && HandNext(cfg, s, h, m) == Some(s')
    ensures LockOk(cfg, s')
  {
  }

  lemma SubCredit(cfg: Config, s: State, r: nat, m: SubMove, s': State)
    requires LockOk(cfg, s) && CreditOk(cfg, s) && r < cfg.n && RequestOk(cfg, s, r)
    requires SubNext(cfg, s, r, m) == Some(s') && LockOk(cfg, s')
    ensures CreditOk(cfg, s')
  {
    if m.Spawn? { LiveUpdate(s.hand, r, Working(r)); }
  }

  lemma HandCredit(cfg: Config, s: State, h: nat, m: HandMove, s': State)
    requires LockOk(cfg, s) && CreditOk(cfg, s) && h < cfg.n
    requires HandNext(cfg, s, h, m) == Some(s') && LockOk(cfg, s')
    ensures CreditOk(cfg, s')
  {
    LiveUpdate(s.hand, h, s'.hand[h]);
  }

  lemma SubQueue(cfg: Config, s: State, r: nat, m: SubMove, s': State)
    requires LockOk(cfg, s) && QueueOk(cfg, s) && r < cfg.n && RequestOk(cfg, s, r)
    requires SubNext(cfg, s, r, m) == Some(s') && LockOk(cfg, s')
    ensures QueueOk(cfg, s')
  {
  }

  lemma HandQueue(cfg: Config, s: State, h: nat, m: HandMove, s': State)
    requires LockOk(cfg, s) && QueueOk(cfg, s) && h < cfg.n && HandlerOk(cfg, s, h)
    requires forall r: nat {:trigger RequestOk(cfg, s, r)} :: r < cfg.n ==> RequestOk(cfg, s, r)
    requires HandNext(cfg, s, h, m) == Some(s') && LockOk(cfg, s')
    ensures QueueOk(cfg, s')
  {
    if m.Create? {
      assert Holds(s.hand[h], s.hand[h].cb);
      assert RequestOk(cfg, s, s.hand[h].cb);
    } else if m.Look? && s.queue != [] {
      assert s.sent == s.taken + [s.queue[0]] + s.queue[1..];
    }
  }

  lemma SubRequest(cfg: Config, s: State, r: nat, m: SubMove, s': State, q: nat)
    requires Shape(cfg, s) && r < cfg.n && q < cfg.n && RequestOk(cfg, s, q) && RequestOk(cfg, s, r)
    requires SubNext(cfg, s, r, m) == Some(s')
    ensures RequestOk(cfg, s', q)
  {
    if q != r { assert s'.sub[q] == s.sub[q] && s'.at[q] == s.at[q] && s'.hand[q] == s.hand[q]; }
  }

  lemma SubHandler(cfg: Config, s: State, r: nat, m: SubMove, s': State, h: nat)
    requires Shape(cfg, s) && r < cfg.n && h < cfg.n && RequestOk(cfg, s, r) && HandlerOk(cfg, s, h)
    requires SubNext(cfg, s, r, m) == Some(s')
    ensures HandlerOk(cfg, s', h)
  {
  }

  lemma HandRequest(cfg: Config, s: State, h: nat, m: HandMove, s': State, q: nat)
    requires LockOk(cfg, s) && QueueOk(cfg, s) && h < cfg.n && q < cfg.n
    requires HandlerOk(cfg, s, h) && RequestOk(cfg, s, q) && HandNext(cfg, s, h, m) == Some(s')
    ensures RequestOk(cfg, s', q)
  {
    match m
    case Create(_) => assert Holds(s.hand[h], s.hand[h].cb);
    case Remove => assert Holds(s.hand[h], s.hand[h].cb);
    case Look =>
      if s.queue != [] { assert forall x :: x in s.queue[1..] <==> x in s.queue && x != s.queue[0]; }
    case Acquire =>
    case Count =>
    case Release => assert s.hand[h].Got? ==> Holds(s.hand[h], s.hand[h].cb);
  }

  lemma HandHandler(cfg: Config, s: State, h: nat, m: HandMove, s': State, k: nat)
    requires LockOk(cfg, s) && QueueOk(cfg, s) && h < cfg.n && k < cfg.n && HandlerOk(cfg, s, h) && HandlerOk(cfg, s, k)
    requires s.queue != [] ==> RequestOk(cfg, s, s.queue[0])
    requires HandNext(cfg, s, h, m) == Some(s')
    ensures HandlerOk(cfg, s', k)
  {
    forall cb: nat | Holds(s'.hand[k], cb) ensures cb < cfg.n && s'.at[cb] == With(k) {
      match m
      case Remove =>
        assert Holds(s.hand[h], s.hand[h].cb);
        assert Holds(s.hand[k], cb);
      case Look =>
      case _ => assert Holds(s.hand[k], cb);
    }
  }

  lemma SubName(cfg: Config, s: State, r: nat, m: SubMove, s': State, q: nat)
    requires Shape(cfg, s) && r < cfg.n && q < cfg.n && RequestOk(cfg, s, q) && NameOk(cfg, s, q)
    requires SubNext(cfg, s, r, m) == Some(s')
    ensures NameOk(cfg, s', q)
  {
  }

  lemma HandName(cfg: Config, s: State, h: nat, m: HandMove, s': State, q: nat)
    requires Shape(cfg, s) && h < cfg.n && q < cfg.n && HandlerOk(cfg, s, h) && NameOk(cfg, s, q)
    requires RequestOk(cfg, s, q) && HandNext(cfg, s, h, m) == Some(s')
    ensures NameOk(cfg, s', q)
  {
    if m.Remove? { assert Holds(s.hand[h], s.hand[h].cb); }
  }

  /** A request gives its name up only together with the registry's entry. */
  lemma SubKeepsName(cfg: Config, s: State, r: nat, m: SubMove, s': State, q: nat)
    requires Shape(cfg, s) && r < cfg.n && q < cfg.n && RequestOk(cfg, s, q) && HasName(cfg, s, q)
    requires SubNext(cfg, s, r, m) == Some(s')
    ensures HasName(cfg, s', q) || cfg.names[q] !in s'.names
  {
  }

  lemma HandKeepsName(cfg: Config, s: State, h: nat, m: HandMove, s': State, q: nat)
    requires Shape(cfg, s) && h < cfg.n && q < cfg.n && HandlerOk(cfg, s, h) && RequestOk(cfg, s, q) && HasName(cfg, s, q)
    requires HandNext(cfg, s, h, m) == Some(s')
    ensures HasName(cfg, s', q) || cfg.names[q] !in s'.names
  {
    if m.Remove? { assert Holds(s.hand[h], s.hand[h].cb); }
  }

  lemma SubUsed(cfg: Config, s: State, r: nat, m: SubMove, s': State, name: nat)
    requires Shape(cfg, s) && r < cfg.n && SubNext(cfg, s, r, m) == Some(s') && name in s'.names
    requires forall q: nat {:trigger RequestOk(cfg, s, q)} :: q < cfg.n ==> RequestOk(cfg, s, q)
    requires name in s.names ==> Used(cfg, s, name)
    ensures Used(cfg, s', name)
  {
    if name in s.names {
      var q: nat :| q < cfg.n && cfg.names[q] == name && HasName(cfg, s, q);
      assert RequestOk(cfg, s, q);
      SubKeepsName(cfg, s, r, m, s', q);
    } else {
      assert cfg.names[r] == name && HasName(cfg, s', r);
    }
  }

  lemma HandUsed(cfg: Config, s: State, h: nat, m: HandMove, s': State, name: nat)
    requires Shape(cfg, s) && h < cfg.n && HandlerOk(cfg, s, h) && HandNext(cfg, s, h, m) == Some(s') && name in s'.names
    requires forall q: nat {:trigger RequestOk(cfg, s, q)} :: q < cfg.n ==> RequestOk(cfg, s, q)
    requires Used(cfg, s, name)
    ensures Used(cfg, s', name)
  {
    var q: nat :| q < cfg.n && cfg.names[q] == name && HasName(cfg, s, q);
    assert RequestOk(cfg, s, q);
    HandKeepsName(cfg, s, h, m, s', q);
  }

  lemma StepInv(cfg: Config, s: State, step: Step, s': State)
    requires Inv(cfg, s) && Next(cfg, s, step) == Some(s')
    ensures Inv(cfg, s')
  {
    match step
    case SubStep(r, m) =>
      assert RequestOk(cfg, s, r);
      SubLock(cfg, s, r, m, s');
      SubCredit(cfg, s, r, m, s');
      SubQueue(cfg, s, r, m, s');
      forall q: nat | q < cfg.n ensures RequestOk(cfg, s', q) && HandlerOk(cfg, s', q) {
        assert RequestOk(cfg, s, q) && HandlerOk(cfg, s, q);
        SubRequest(cfg, s, r, m, s', q);
        SubHandler(cfg, s, r, m, s', q);
      }
      forall q: nat | q < cfg.n ensures NameOk(cfg, s', q) {
        assert RequestOk(cfg, s, q) && NameOk(cfg, s, q);
        SubName(cfg, s, r, m, s', q);
      }
      forall name | name in s'.names ensures Used(cfg, s', name) { SubUsed(cfg, s, r, m, s', name); }
    case HandStep(h, m) =>
      assert HandlerOk(cfg, s, h);
      HandLock(cfg, s, h, m, s');
      HandCredit(cfg, s, h, m, s');
      HandQueue(cfg, s, h, m, s');
      forall q: nat | q < cfg.n ensures RequestOk(cfg, s', q) && HandlerOk(cfg, s', q) {
        assert RequestOk(cfg, s, q) && HandlerOk(cfg, s, q);
        HandRequest(cfg, s, h, m, s', q);
        if s.queue != [] { assert RequestOk(cfg, s, s.queue[0]); }
        HandHandler(cfg, s, h, m, s', q);
      }
      forall q: nat | q < cfg.n ensures NameOk(cfg, s', q) {
        assert RequestOk(cfg, s, q) && NameOk(cfg, s, q);
        HandName(cfg, s, h, m, s', q);
      }
      forall name | name in s'.names ensures Used(cfg, s', name) { HandUsed(cfg, s, h, m, s', name); }
  }

  lemma {:induction false} LeadsInv(cfg: Config, s: State, steps: seq<Step>, t: State)
    requires Inv(cfg, s) && Leads(cfg, s, steps, t)
    ensures Inv(cfg, t)
    decreases steps
  {
    if steps == [] {
    } else {
      var next := Next(cfg, s, steps[0]).value;
      StepInv(cfg, s, steps[0], next);
      LeadsInv(cfg, next, steps[1..], t);
    }
  }

  lemma ReachableInv(cfg: Config, s: State)
    requires Reachable(cfg, s)
    ensures Inv(cfg, s)
  {
    InitInv(cfg);
    var steps :| Leads(cfg, Init(cfg), steps, s);
    LeadsInv(cfg, Init(cfg), steps, s);
  }
}
