/**
 The reservation of a pod's names while others use the registry: it takes the registry's lock
 once per call, so anything may happen between two calls.
 */
module NameRegistrySchedules {
  import opened NameRegistry

  /** Where `reserveNames` is: before the pod, before container `n`, or before it takes out container `k` of `n`. */
  datatype Stage = Begin | Taking(n: nat) | Undoing(k: nat, n: nat) | Over

  datatype Event = Own | Other(op: Op)

  function OwnStep(p: Pod, cs: seq<Container>, g: Registry, st: Stage): (Registry, Stage) {
    match st
    case Begin => var (h, ok) := ReservePod(g, p); (h, if ok then Taking(0) else Over)
    case Taking(n) =>
      if n >= |cs| then (g, Over)
      else var (h, ok) := ReserveContainer(g, cs[n], p.id); (h, if ok then Taking(n + 1) else Undoing(0, n))
    case Undoing(k, n) =>
      if k < n && k < |cs| then (ReleaseContainer(g, cs[k]), Undoing(k + 1, n)) else (Release(g, p.id), Over)
    case Over => (g, Over)
  }

  function Happens(p: Pod, cs: seq<Container>, g: Registry, st: Stage, e: Event): (Registry, Stage) {
    match e
    case Own => OwnStep(p, cs, g, st)
    case Other(op) => (Apply(g, op), st)
  }

  predicate Mine(g: Registry, p: Pod, kind: Kind, k: string) {
    OwnerOf(g, kind, k) == if kind.PodId? then Itself(p) else ByPod(p.id)
  }

  /** An operation of somebody else takes nothing away from the pod, and does not register the empty id. */
  ghost predicate Spares(g: Registry, p: Pod, op: Op) {
    && (forall kind, k :: Mine(g, p, kind, k) ==> Mine(Apply(g, op), p, kind, k))
    && ("" in Apply(g, op).containers ==> "" in g.containers)
  }

  /** The pod's containers are registered under its id, and the empty id is not registered. */
  ghost predicate OwnKeys(g: Registry, p: Pod) {
    && "" !in g.containers
    && (forall k :: k in p.containerIds ==> Mine(g, p, ContainerId, k))
    && (forall k :: k in p.containerNames ==> Mine(g, p, ContainerName, k))
  }

  ghost predicate Leads(p: Pod, cs: seq<Container>, g: Registry, st: Stage, events: seq<Event>, h: Registry, st': Stage)
    decreases |events|
  {
    if events == [] then g == h && st == st'
    else
      && (events[0].Other? ==> Spares(g, p, events[0].op))
      && var (g1, st1) := Happens(p, cs, g, st, events[0]); Leads(p, cs, g1, st1, events[1..], h, st')
  }

  /** The registry and the stage that some schedule leads to, in which the others spare the pod. */
  ghost predicate Reachable(p: Pod, cs: seq<Container>, g: Registry, st: Stage) {
    exists g0, events :: OwnKeys(g0, p) && Leads(p, cs, g0, Begin, events, g, st)
  }

  /** The next call of `reserveNames` takes a key from another pod. */
  ghost predicate Harms(p: Pod, cs: seq<Container>, g: Registry, st: Stage) {
    exists kind, k :: !OwnerOf(g, kind, k).Nobody? && !Mine(g, p, kind, k) && Changed(g, OwnStep(p, cs, g, st).0, kind, k)
  }

  predicate Changed(g: Registry, h: Registry, kind: Kind, k: string) {
    OwnerOf(h, kind, k) != OwnerOf(g, kind, k)
  }

  ghost predicate NeverHarms(p: Pod, cs: seq<Container>) {
    forall g, st :: Reachable(p, cs, g, st) ==> !Harms(p, cs, g, st)
  }

  // ---- without others ----

  function Left(cs: seq<Container>, st: Stage): int {
    match st
    case Begin => 2 * |cs| + 4
    case Taking(n) => if n <= |cs| then 2 * |cs| - n + 3 else 1
    case Undoing(k, n) => if k < n then n - k + 1 else 1
    case Over => 0
  }

  /** The registry when `reserveNames` returns, if nobody else acts. */
  function Finished(p: Pod, cs: seq<Container>, g: Registry, st: Stage): Registry
    decreases Left(cs, st)
  {
    if st.Over? then g
    else
      var (h, st') := OwnStep(p, cs, g, st);
      Finished(p, cs, h, st')
  }

  lemma {:induction false} UndoFinished(p: Pod, cs: seq<Container>, g: Registry, k: nat, n: nat)
    requires k <= n <= |cs| && Mine(g, p, PodId, p.id)
    ensures Finished(p, cs, g, Undoing(k, n)) == RolledBack(g, p, cs[k..n])
    decreases n - k
  {
    if k == n {
      assert Release(g, p.id) == RolledBack(g, p, []);
    } else {
      var h := ReleaseContainer(g, cs[k]);
      UndoFinished(p, cs, h, k + 1, n);
      OutFirst(g, p, cs[k], cs[k + 1..n]);
      assert cs[k..n] == [cs[k]] + cs[k + 1..n];
    }
  }

  lemma OutFirst(g: Registry, p: Pod, c: Container, done: seq<Container>)
    ensures RolledBack(ReleaseContainer(g, c), p, done) == RolledBack(g, p, [c] + done)
  {
    assert Ids([c] + done) == {c.id} + Ids(done) && Names([c] + done) == {c.name} + Names(done);
  }

  /** Keys that are taken out anyway may be entered before. */
  lemma EnteredFirst(g: Registry, p: Pod, c: Container, done: seq<Container>)
    requires c in done && CanReserve(g, c, p.id)
    ensures RolledBack(ReserveContainer(g, c, p.id).0, p, done) == RolledBack(g, p, done)
  {
    assert c.id in Ids(done) && c.name in Names(done);
  }

  lemma {:induction false} TakeFinished(p: Pod, cs: seq<Container>, g: Registry, k: nat, n: nat)
    requires k <= n <= |cs| && Mine(g, p, PodId, p.id) && n == k + Reserved(g, cs[k..], p.id)
    ensures Finished(p, cs, g, Taking(k))
            == if n == |cs| then ReserveAll(g, cs[k..], p.id) else RolledBack(g, p, cs[..n])
    decreases |cs| - k
  {
    if k == |cs| {
    } else {
      assert cs[k..][0] == cs[k] && cs[k..][1..] == cs[k + 1..];
      if CanReserve(g, cs[k], p.id) {
        TakeFinished(p, cs, ReserveContainer(g, cs[k], p.id).0, k + 1, n);
        assert cs[..n][k] == cs[k];
        EnteredFirst(g, p, cs[k], cs[..n]);
      } else {
        UndoFinished(p, cs, g, 0, k);
        assert cs[0..k] == cs[..k];
      }
    }
  }

  /** The calls one after the other do what the function says. */
  lemma FinishedIsReservedNames(p: Pod, cs: seq<Container>, g: Registry)
    ensures Finished(p, cs, g, Begin) == ReservedNames(g, p, cs).0
  {
    var (h, fits) := ReservePod(g, p);
    if fits {
      assert cs[0..] == cs;
      var n := Reserved(h, cs, p.id);
      TakeFinished(p, cs, h, 0, n);
      assert h.pods - {p.id} == g.pods - {p.id};
    }
  }

  // ---- the condition ----

  /** Container `n` has a key that is not the pod's by then, so that another pod may have it. */
  ghost predicate CanFail(p: Pod, cs: seq<Container>, n: nat)
    requires n < |cs|
  {
    || cs[n].name !in Names(cs[..n]) + p.containerNames
    || (cs[n].id != "" && cs[n].id !in Ids(cs[..n]) + p.containerIds)
  }

  /** Undoing takes out every key once. */
  ghost predicate OnceEach(p: Pod, done: seq<Container>) {
    && (forall i, j :: 0 <= i < j < |done| ==> done[i].id != done[j].id || done[i].id == "")
    && (forall i, j :: 0 <= i < j < |done| ==> done[i].name != done[j].name)
    && (forall i :: 0 <= i < |done| ==> done[i].id !in p.containerIds && done[i].name !in p.containerNames)
  }

  ghost predicate Careful(p: Pod, cs: seq<Container>) {
    forall n: nat :: n < |cs| && CanFail(p, cs, n) ==> OnceEach(p, cs[..n])
  }

  // ---- careful lists harm nobody ----

  predicate Has(g: Registry, p: Pod, c: Container) {
    Mine(g, p, ContainerName, c.name) && (c.id != "" ==> Mine(g, p, ContainerId, c.id))
  }

  ghost predicate Holds(p: Pod, cs: seq<Container>, g: Registry, st: Stage) {
    match st
    case Begin => OwnKeys(g, p)
    case Taking(n) =>
      && n <= |cs| && OwnKeys(g, p) && Mine(g, p, PodId, p.id)
      && forall i :: 0 <= i < n ==> Has(g, p, cs[i])
    case Undoing(k, n) =>
      && k <= n <= |cs| && OwnKeys(g, p) && Mine(g, p, PodId, p.id) && OnceEach(p, cs[..n])
      && forall i :: k <= i < n ==> Has(g, p, cs[i])
    case Over => true
  }

  lemma OtherHolds(p: Pod, cs: seq<Container>, g: Registry, st: Stage, op: Op)
    requires Holds(p, cs, g, st) && Spares(g, p, op)
    ensures Holds(p, cs, Apply(g, op), st)
  {
  }

  /** A container that cannot be reserved has a key of another pod. */
  lemma FailedKey(p: Pod, cs: seq<Container>, g: Registry, n: nat)
    requires Holds(p, cs, g, Taking(n)) && n < |cs| && !CanReserve(g, cs[n], p.id)
    ensures CanFail(p, cs, n)
  {
    forall c | c in cs[..n] ensures Has(g, p, c) {
      var i :| 0 <= i < n && cs[i] == c;
    }
  }

  lemma TakingHolds(p: Pod, cs: seq<Container>, g: Registry, n: nat)
    requires Careful(p, cs) && Holds(p, cs, g, Taking(n))
    ensures var (h, st) := OwnStep(p, cs, g, Taking(n)); Holds(p, cs, h, st)
  {
    if n < |cs| && !CanReserve(g, cs[n], p.id) {
      FailedKey(p, cs, g, n);
    }
  }

  lemma UndoingHolds(p: Pod, cs: seq<Container>, g: Registry, k: nat, n: nat)
    requires Holds(p, cs, g, Undoing(k, n))
    ensures var (h, st) := OwnStep(p, cs, g, Undoing(k, n)); Holds(p, cs, h, st)
    ensures !Harms(p, cs, g, Undoing(k, n))
  {
    if k < n {
      var done := cs[..n];
      assert done[k] == cs[k];
      forall i | k < i < n ensures cs[i].name != cs[k].name && (cs[i].id != cs[k].id || cs[i].id == "") { assert done[i] == cs[i]; }
    }
  }

  lemma OwnHolds(p: Pod, cs: seq<Container>, g: Registry, st: Stage)
    requires Careful(p, cs) && Holds(p, cs, g, st)
    ensures var (h, st') := OwnStep(p, cs, g, st); Holds(p, cs, h, st')
    ensures !Harms(p, cs, g, st)
  {
    match st
    case Begin =>
    case Taking(n) => TakingHolds(p, cs, g, n);
    case Undoing(k, n) => UndoingHolds(p, cs, g, k, n);
    case Over =>
  }

  lemma {:induction false} LeadsHolds(p: Pod, cs: seq<Container>, g: Registry, st: Stage, events: seq<Event>, h: Registry, st': Stage)
    requires Careful(p, cs) && Holds(p, cs, g, st) && Leads(p, cs, g, st, events, h, st')
    ensures Holds(p, cs, h, st')
    decreases |events|
  {
    if events == [] {
    } else {
      var (g1, st1) := Happens(p, cs, g, st, events[0]);
      match events[0] {
        case Own => OwnHolds(p, cs, g, st);
        case Other(op) => OtherHolds(p, cs, g, st, op);
      }
      LeadsHolds(p, cs, g1, st1, events[1..], h, st');
    }
  }

  // ---- the others harm somebody ----

  lemma {:induction false} LeadsThen(
      p: Pod, cs: seq<Container>, g: Registry, st: Stage, events: seq<Event>, h: Registry, st': Stage, e: Event)
    requires Leads(p, cs, g, st, events, h, st') && (e.Other? ==> Spares(h, p, e.op))
    ensures var (h1, st1) := Happens(p, cs, h, st', e); Leads(p, cs, g, st, events + [e], h1, st1)
    decreases |events|
  {
    if events == [] {
      assert [e][1..] == [];
    } else {
      var (g1, st1) := Happens(p, cs, g, st, events[0]);
      assert (events + [e])[1..] == events[1..] + [e];
      LeadsThen(p, cs, g1, st1, events[1..], h, st', e);
    }
  }

  lemma Then(p: Pod, cs: seq<Container>, g: Registry, st: Stage, e: Event)
    requires Reachable(p, cs, g, st) && (e.Other? ==> Spares(g, p, e.op))
    ensures var (h, st') := Happens(p, cs, g, st, e); Reachable(p, cs, h, st')
  {
    var g0, events :| OwnKeys(g0, p) && Leads(p, cs, g0, Begin, events, g, st);
    LeadsThen(p, cs, g0, Begin, events, g, st, e);
  }

  function Rival(p: Pod): Pod {
    Pod(p.ref, p.id + "'", {}, {})
  }

  /** Every key is the pod's, but one of container `n`, which is the rival's. */
  ghost predicate Contested(p: Pod, cs: seq<Container>, n: nat, g: Registry)
    requires n < |cs|
  {
    && (forall k :: k in g.names && g.names[k] != p.id ==> k == cs[n].name && k !in Names(cs[..n]))
    && (forall k :: k in g.containers && g.containers[k] != p.id ==> k == cs[n].id && k !in Ids(cs[..n]) && k != "")
    && Taken(g, cs[n], p.id) && "" !in g.containers
  }

  /** A registry in which container `n` cannot be reserved, and all before it can. */
  lemma Contest(p: Pod, cs: seq<Container>, n: nat) returns (g: Registry)
    requires n < |cs| && CanFail(p, cs, n) && "" !in p.containerIds
    ensures OwnKeys(g, p) && g.pods == map[] && Contested(p, cs, n, g)
  {
    var ids := map k | k in p.containerIds :: p.id;
    var names := map k | k in p.containerNames :: p.id;
    var q := Rival(p).id;
    if cs[n].name !in Names(cs[..n]) + p.containerNames {
      g := Registry(map[], ids, names[cs[n].name := q]);
    } else {
      g := Registry(map[], ids[cs[n].id := q], names);
    }
  }

  /** The pod and the containers before `n` are reserved. */
  lemma {:induction false} TakesTo(p: Pod, cs: seq<Container>, n: nat, m: nat) returns (g: Registry)
    requires n < |cs| && CanFail(p, cs, n) && m <= n && "" !in p.containerIds
    ensures Reachable(p, cs, g, Taking(m)) && Mine(g, p, PodId, p.id) && Contested(p, cs, n, g)
  {
    if m == 0 {
      var g0 := Contest(p, cs, n);
      assert Leads(p, cs, g0, Begin, [], g0, Begin);
      Then(p, cs, g0, Begin, Own);
      g := ReservePod(g0, p).0;
    } else {
      var h := TakesTo(p, cs, n, m - 1);
      assert cs[m - 1] in cs[..n];
      Then(p, cs, h, Taking(m - 1), Own);
      g := ReserveContainer(h, cs[m - 1], p.id).0;
    }
  }

  /** Container `n` fails, and the first `m` are taken out again. */
  lemma {:induction false} UndoesTo(p: Pod, cs: seq<Container>, n: nat, m: nat) returns (g: Registry)
    requires n < |cs| && CanFail(p, cs, n) && m <= n && "" !in p.containerIds
    ensures Reachable(p, cs, g, Undoing(m, n)) && Mine(g, p, PodId, p.id)
    ensures forall i :: 0 <= i < m ==> cs[i].name !in g.names && cs[i].id !in g.containers
  {
    if m == 0 {
      g := TakesTo(p, cs, n, n);
      Then(p, cs, g, Taking(n), Own);
    } else {
      var h := UndoesTo(p, cs, n, m - 1);
      Then(p, cs, h, Undoing(m - 1, n), Own);
      g := ReleaseContainer(h, cs[m - 1]);
    }
  }

  function Grab(p: Pod, kind: Kind, k: string): Op {
    if kind.ContainerId? then OpReserveId(k, Rival(p).id) else OpReserveName(k, Rival(p).id)
  }

  lemma GrabSpares(g: Registry, p: Pod, kind: Kind, k: string)
    requires !kind.PodId? && OwnerOf(g, kind, k).Nobody? && (kind.ContainerId? ==> k != "")
    ensures var h := Apply(g, Grab(p, kind, k)); h.pods == g.pods && OwnerOf(h, kind, k) == ByPod(Rival(p).id)
    ensures Spares(g, p, Grab(p, kind, k))
  {
  }

  /** The rival takes a free key that the pod's next call takes out. */
  lemma Strike(p: Pod, cs: seq<Container>, g: Registry, st: Stage, kind: Kind, k: string)
    requires Reachable(p, cs, g, st) && st.Undoing? && !kind.PodId? && OwnerOf(g, kind, k).Nobody?
    requires kind.ContainerId? ==> k != ""
    requires forall h: Registry :: h.pods == g.pods ==> OwnerOf(OwnStep(p, cs, h, st).0, kind, k).Nobody?
    ensures !NeverHarms(p, cs)
  {
    GrabSpares(g, p, kind, k);
    Then(p, cs, g, st, Other(Grab(p, kind, k)));
    var h := Apply(g, Grab(p, kind, k));
    assert |Rival(p).id| != |p.id|;
    assert Changed(h, OwnStep(p, cs, h, st).0, kind, k);
    assert Harms(p, cs, h, st);
  }

  /** Where a key is taken out again. */
  lemma Carelessness(p: Pod, done: seq<Container>) returns (m: nat, kind: Kind, k: string)
    requires !OnceEach(p, done) && "" !in p.containerIds
    ensures m <= |done| && !kind.PodId? && (kind.ContainerId? ==> k != "")
    ensures if m < |done| then k == (if kind.ContainerId? then done[m].id else done[m].name)
            else k in if kind.ContainerId? then p.containerIds else p.containerNames
    ensures exists i :: 0 <= i < m && k == if kind.ContainerId? then done[i].id else done[i].name
  {
    if i, j :| 0 <= i < j < |done| && done[i].id == done[j].id && done[i].id != "" {
      m, kind, k := j, ContainerId, done[j].id;
    } else if i, j :| 0 <= i < j < |done| && done[i].name == done[j].name {
      m, kind, k := j, ContainerName, done[j].name;
    } else {
      var i :| 0 <= i < |done| && (done[i].id in p.containerIds || done[i].name in p.containerNames);
      m := |done|;
      if done[i].id in p.containerIds {
        kind, k := ContainerId, done[i].id;
      } else {
        kind, k := ContainerName, done[i].name;
      }
    }
  }

  lemma CarelessHarms(p: Pod, cs: seq<Container>, n: nat)
    requires n < |cs| && CanFail(p, cs, n) && !OnceEach(p, cs[..n]) && "" !in p.containerIds
    ensures !NeverHarms(p, cs)
  {
    var m, kind, k := Carelessness(p, cs[..n]);
    var g := UndoesTo(p, cs, n, m);
    assert g.pods[p.id] == p;
    Strike(p, cs, g, Undoing(m, n), kind, k);
  }

  /**
   At every schedule in which the others spare the pod's keys, reserving and rolling back takes
   no key from another pod, exactly when the list is careful: before each container that may
   fail all names differ, and all ids that are not empty, and none belongs to the pod already.
   (The containers a pod has already were made by the engine, which gave them ids.)
   */
  lemma HarmlessIff(p: Pod, cs: seq<Container>)
    requires "" !in p.containerIds
    ensures NeverHarms(p, cs) <==> Careful(p, cs)
  {
    if Careful(p, cs) {
      forall g, st | Reachable(p, cs, g, st) ensures !Harms(p, cs, g, st) {
        var g0, events :| OwnKeys(g0, p) && Leads(p, cs, g0, Begin, events, g, st);
        LeadsHolds(p, cs, g0, Begin, events, g, st);
        OwnHolds(p, cs, g, st);
      }
    } else {
      var n: nat :| n < |cs| && CanFail(p, cs, n) && !OnceEach(p, cs[..n]);
      CarelessHarms(p, cs, n);
    }
  }
}
