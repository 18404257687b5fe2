/**
 The registry of pods, container ids and container names, and the reservation of all names of
 a pod with its roll back.
 */
module NameRegistry {
  /** A pod object: `ref` tells objects with equal ids apart. */
  datatype Pod = Pod(ref: nat, id: string, containerIds: set<string>, containerNames: set<string>)

  datatype Registry = Registry(pods: map<string, Pod>, containers: map<string, string>, names: map<string, string>)

  /** A container of a specification. */
  datatype Container = Container(id: string, name: string)

  predicate Free(owners: map<string, string>, key: string, pod: string) {
    key in owners ==> owners[key] == pod
  }

  // ---- the operations, on values: the second component says whether they succeed ----

  function ReserveContainerID(g: Registry, id: string, pod: string): (Registry, bool) {
    if Free(g.containers, id, pod) then (g.(containers := g.containers[id := pod]), true) else (g, false)
  }

  function ReserveContainerName(g: Registry, name: string, pod: string): (Registry, bool) {
    if Free(g.names, name, pod) then (g.(names := g.names[name := pod]), true) else (g, false)
  }

  predicate CanReserve(g: Registry, c: Container, pod: string) {
    pod in g.pods && Free(g.names, c.name, pod) && (c.id != "" ==> Free(g.containers, c.id, pod))
  }

  function ReserveContainer(g: Registry, c: Container, pod: string): (Registry, bool) {
    if !CanReserve(g, c, pod) then (g, false)
    else
      var containers := if c.id != "" then g.containers[c.id := pod] else g.containers;
      (g.(containers := containers, names := g.names[c.name := pod]), true)
  }

  function ChangeContainerId(g: Registry, oldId: string, newId: string, pod: string): (Registry, bool) {
    if pod !in g.pods || !Free(g.containers, newId, pod) then (g, false)
    else (g.(containers := (g.containers - {oldId})[newId := pod]), true)
  }

  function ReservePod(g: Registry, p: Pod): (Registry, bool) {
    if p.id in g.pods && g.pods[p.id] != p then (g, false) else (g.(pods := g.pods[p.id := p]), true)
  }

  function Release(g: Registry, id: string): Registry {
    if id in g.pods then
      Registry(g.pods - {id}, g.containers - g.pods[id].containerIds, g.names - g.pods[id].containerNames)
    else g
  }

  function ReleaseContainer(g: Registry, c: Container): Registry {
    g.(containers := g.containers - {c.id}, names := g.names - {c.name})
  }

  function ReleaseContainerName(g: Registry, name: string): Registry {
    g.(names := g.names - {name})
  }

  // ---- a reservation that fails ----

  /** The number of containers reserved before the first that cannot be. */
  function Reserved(g: Registry, cs: seq<Container>, pod: string): (n: nat)
    ensures n <= |cs|
    decreases |cs|
  {
    if cs == [] || !CanReserve(g, cs[0], pod) then 0 else 1 + Reserved(ReserveContainer(g, cs[0], pod).0, cs[1..], pod)
  }

  function Ids(cs: seq<Container>): set<string> {
    set c | c in cs :: c.id
  }

  function Names(cs: seq<Container>): set<string> {
    set c | c in cs :: c.name
  }

  /** What a failed reservation leaves: the containers done are taken out, and the pod with all that is its. */
  function RolledBack(g: Registry, p: Pod, done: seq<Container>): Registry {
    Registry(g.pods - {p.id}, g.containers - Ids(done) - p.containerIds, g.names - Names(done) - p.containerNames)
  }

  /** The registry knows nothing of the pod or of the containers done before. */
  ghost predicate Unknown(g: Registry, p: Pod, done: seq<Container>) {
    && p.id !in g.pods
    && Ids(done) + p.containerIds !! g.containers.Keys
    && Names(done) + p.containerNames !! g.names.Keys
  }

  /** The container's name, or its id if it has one, belongs to another pod. */
  predicate Taken(g: Registry, c: Container, pod: string) {
    !Free(g.names, c.name, pod) || (c.id != "" && !Free(g.containers, c.id, pod))
  }

  /** The position of the first container that is taken, or the number of containers. */
  function FirstTaken(g: Registry, cs: seq<Container>, pod: string): (n: nat)
    ensures n <= |cs| && (forall i :: 0 <= i < n ==> !Taken(g, cs[i], pod)) && (n < |cs| ==> Taken(g, cs[n], pod))
    decreases |cs|
  {
    if cs == [] || Taken(g, cs[0], pod) then 0
    else
      var n := FirstTaken(g, cs[1..], pod);
      assert forall i :: 0 < i < n + 1 ==> cs[i] == cs[1..][i - 1];
      n + 1
  }

  /** The same keys belong to other pods. */
  ghost predicate SameOthers(g: Registry, h: Registry, pod: string) {
    && (forall k :: Free(g.names, k, pod) <==> Free(h.names, k, pod))
    && (forall k :: Free(g.containers, k, pod) <==> Free(h.containers, k, pod))
  }

  lemma {:induction false} ReservedUntilTaken(g: Registry, h: Registry, cs: seq<Container>, pod: string)
    requires SameOthers(g, h, pod) && pod in h.pods
    ensures Reserved(h, cs, pod) == FirstTaken(g, cs, pod)
    decreases |cs|
  {
    if cs == [] || !CanReserve(h, cs[0], pod) {
    } else {
      ReservedUntilTaken(g, ReserveContainer(h, cs[0], pod).0, cs[1..], pod);
    }
  }

  /** What `reserveNames` leaves, and whether it succeeds. */
  function ReservedNames(g: Registry, p: Pod, cs: seq<Container>): (Registry, bool) {
    var (h, fits) := ReservePod(g, p);
    var n := Reserved(h, cs, p.id);
    if !fits then (g, false)
    else if n == |cs| then (ReserveAll(h, cs, p.id), true)
    else (RolledBack(g, p, cs[..n]), false)
  }

  /** The pod id is in use by another pod object. */
  predicate IdInUse(g: Registry, p: Pod) {
    p.id in g.pods && g.pods[p.id] != p
  }

  /** A reservation fails exactly when the pod id is in use or some container is taken, by the registry as it was. */
  lemma FailsIff(g: Registry, p: Pod, cs: seq<Container>)
    ensures !ReservedNames(g, p, cs).1 <==> IdInUse(g, p) || exists i :: 0 <= i < |cs| && Taken(g, cs[i], p.id)
    ensures !IdInUse(g, p) && !ReservedNames(g, p, cs).1 ==>
              ReservedNames(g, p, cs).0 == RolledBack(g, p, cs[..FirstTaken(g, cs, p.id)])
  {
    if !IdInUse(g, p) {
      ReservedUntilTaken(g, ReservePod(g, p).0, cs, p.id);
    }
  }

  lemma RolledBackKeys(g: Registry, p: Pod, done: seq<Container>)
    ensures RolledBack(g, p, done) == g <==> Unknown(g, p, done)
  {
    var r := RolledBack(g, p, done);
    assert r.pods.Keys == g.pods.Keys - {p.id};
    assert r.containers.Keys == g.containers.Keys - (Ids(done) + p.containerIds);
    assert r.names.Keys == g.names.Keys - (Names(done) + p.containerNames);
    if Unknown(g, p, done) {
      assert r.pods == g.pods && r.containers == g.containers && r.names == g.names;
    }
  }

  /**
   A failed reservation leaves the registry as it was exactly when the pod id is in use by
   another object, or the registry knows neither the pod nor its containers nor any container
   listed before the first that is taken.
   */
  lemma InvisibleIff(g: Registry, p: Pod, cs: seq<Container>)
    requires !ReservedNames(g, p, cs).1
    ensures ReservedNames(g, p, cs).0 == g
            <==> IdInUse(g, p) || Unknown(g, p, cs[..FirstTaken(g, cs, p.id)])
  {
    FailsIff(g, p, cs);
    RolledBackKeys(g, p, cs[..FirstTaken(g, cs, p.id)]);
  }

  /** The second reservation of a pod, with a name that another pod has got meanwhile, drops the pod's own entry. */
  lemma RegisteredPodIsDropped(p: Pod, q: Pod, name: string)
    requires p.id != q.id
    ensures var g := Registry(map[p.id := p, q.id := q], map[], map[name := q.id]);
            var (h, ok) := ReservedNames(g, p, [Container("", name)]);
            !ok && p.id in g.pods && p.id !in h.pods
  {
    var g := Registry(map[p.id := p, q.id := q], map[], map[name := q.id]);
    var c := Container("", name);
    assert [c][0] == c && Taken(g, c, p.id);
    FailsIff(g, p, [c]);
  }

  /** The registry has nothing that belongs to the pod. */
  ghost predicate Stranger(g: Registry, p: Pod) {
    && p.id !in g.pods && "" !in g.containers
    && p.containerIds !! g.containers.Keys && p.containerNames !! g.names.Keys
    && (forall k :: k in g.containers ==> g.containers[k] != p.id)
    && (forall k :: k in g.names ==> g.names[k] != p.id)
  }

  /** A failed reservation for a pod the registry has nothing of is invisible, for every container list. */
  lemma StrangerInvisible(g: Registry, p: Pod, cs: seq<Container>)
    requires Stranger(g, p) && !ReservedNames(g, p, cs).1
    ensures ReservedNames(g, p, cs).0 == g
  {
    var n := FirstTaken(g, cs, p.id);
    var done := cs[..n];
    forall c | c in done ensures c.id !in g.containers && c.name !in g.names {
      var i :| 0 <= i < n && cs[i] == c;
      assert !Taken(g, cs[i], p.id);
    }
    InvisibleIff(g, p, cs);
  }

  // ---- no direct moves ----

  datatype Op =
    | OpReserveId(id: string, pod: string)
    | OpReserveName(name: string, pod: string)
    | OpReserve(c: Container, pod: string)
    | OpChangeId(oldId: string, newId: string, pod: string)
    | OpReservePod(p: Pod)
    | OpRelease(podId: string)
    | OpReleaseContainer(c: Container)
    | OpReleaseName(name: string)

  function Apply(g: Registry, op: Op): Registry {
    match op
    case OpReserveId(id, pod) => ReserveContainerID(g, id, pod).0
    case OpReserveName(name, pod) => ReserveContainerName(g, name, pod).0
    case OpReserve(c, pod) => ReserveContainer(g, c, pod).0
    case OpChangeId(oldId, newId, pod) => ChangeContainerId(g, oldId, newId, pod).0
    case OpReservePod(p) => ReservePod(g, p).0
    case OpRelease(podId) => Release(g, podId)
    case OpReleaseContainer(c) => ReleaseContainer(g, c)
    case OpReleaseName(name) => ReleaseContainerName(g, name)
  }

  datatype Kind = ContainerId | ContainerName | PodId

  datatype Owner = Nobody | ByPod(id: string) | Itself(p: Pod)

  /** Who has the key. */
  function OwnerOf(g: Registry, kind: Kind, k: string): Owner {
    match kind
    case ContainerId => if k in g.containers then ByPod(g.containers[k]) else Nobody
    case ContainerName => if k in g.names then ByPod(g.names[k]) else Nobody
    case PodId => if k in g.pods then Itself(g.pods[k]) else Nobody
  }

  /** No operation hands an id, a name or a pod id directly from one owner to another. */
  lemma NoDirectMove(g: Registry, op: Op, kind: Kind, k: string)
    ensures var was, now := OwnerOf(g, kind, k), OwnerOf(Apply(g, op), kind, k);
            was.Nobody? || now.Nobody? || now == was
  {
  }

  function Run(g: Registry, ops: seq<Op>): Registry
    decreases ops
  {
    if ops == [] then g else Run(Apply(g, ops[0]), ops[1..])
  }

  /** Over a whole run, a key with two different owners was unowned in between. */
  lemma {:induction false} OwnedApart(g: Registry, ops: seq<Op>, kind: Kind, k: string)
    requires !OwnerOf(g, kind, k).Nobody? && !OwnerOf(Run(g, ops), kind, k).Nobody?
    requires OwnerOf(Run(g, ops), kind, k) != OwnerOf(g, kind, k)
    ensures exists i :: 0 < i < |ops| && OwnerOf(Run(g, ops[..i]), kind, k).Nobody?
    decreases |ops|
  {
    var g1 := Apply(g, ops[0]);
    NoDirectMove(g, ops[0], kind, k);
    if !OwnerOf(g1, kind, k).Nobody? {
      OwnedApart(g1, ops[1..], kind, k);
      var i :| 0 < i < |ops[1..]| && OwnerOf(Run(g1, ops[1..][..i]), kind, k).Nobody?;
      assert ops[..i + 1][1..] == ops[1..][..i];
      assert OwnerOf(Run(g, ops[..i + 1]), kind, k).Nobody?;
    } else {
      assert ops[..1] == [ops[0]] && ops[..1][1..] == [];
      assert Run(g, ops[..1]) == g1;
    }
  }

  function ReserveAll(g: Registry, cs: seq<Container>, pod: string): Registry
    decreases |cs|
  {
    if cs == [] then g else ReserveAll(ReserveContainer(g, cs[0], pod).0, cs[1..], pod)
  }

  /** The registry object; each method is one critical section, except the last two. */
  class PodList {
    var pods: map<string, Pod>
    var containers: map<string, string>
    var names: map<string, string>

    ghost function View(): Registry
      reads this
    {
      Registry(pods, containers, names)
    }

    method AddPod(p: Pod) returns (ok: bool)
      modifies this
      ensures (View(), ok) == ReservePod(old(View()), p)
    {
      ok := p.id !in pods || pods[p.id] == p;
      if ok {
        pods := pods[p.id := p];
      }
    }

    method AddContainer(c: Container, pod: string) returns (ok: bool)
      modifies this
      ensures (View(), ok) == ReserveContainer(old(View()), c, pod)
    {
      if pod !in pods || (c.name in names && names[c.name] != pod) {
        return false;
      }
      if c.id != "" {
        if c.id in containers && containers[c.id] != pod {
          return false;
        }
        containers := containers[c.id := pod];
      }
      names := names[c.name := pod];
      ok := true;
    }

    method ChangeId(oldId: string, newId: string, pod: string) returns (ok: bool)
      modifies this
      ensures (View(), ok) == ChangeContainerId(old(View()), oldId, newId, pod)
    {
      if pod !in pods || (newId in containers && containers[newId] != pod) {
        return false;
      }
      containers := containers - {oldId};
      containers := containers[newId := pod];
      ok := true;
    }

    method DropContainer(c: Container)
      modifies this
      ensures View() == ReleaseContainer(old(View()), c)
    {
      containers, names := containers - {c.id}, names - {c.name};
    }

    method DropPod(id: string)
      modifies this
      ensures View() == Release(old(View()), id)
    {
      if id in pods {
        containers, names := containers - pods[id].containerIds, names - pods[id].containerNames;
      }
      pods := pods - {id};
    }

    /** `releaseNames`. */
    method ReleaseNames(p: Pod, done: seq<Container>)
      requires p.id in pods && pods[p.id] == p
      modifies this
      ensures View() == RolledBack(old(View()), p, done)
    {
      var j := 0;
      assert containers - {} == containers && names - {} == names;
      while j < |done|
        invariant j <= |done| && pods == old(pods)
        invariant containers == old(containers) - Ids(done[..j]) && names == old(names) - Names(done[..j])
      {
        OneMore(done, j);
        DropContainer(done[j]);
        j := j + 1;
      }
      assert done[..j] == done;
      DropPod(p.id);
    }

    /**
     `reserveNames`: either the pod and all its containers are registered, or everything done
     is rolled back.
     */
    method ReserveNames(p: Pod, cs: seq<Container>) returns (ok: bool)
      modifies this
      ensures (View(), ok) == ReservedNames(old(View()), p, cs)
    {
      ghost var was := View();
      ok := AddPod(p);
      if !ok {
        return;
      }
      var k := 0;
      ghost var h := View();
      while k < |cs|
        invariant k <= |cs| && Halfway(was, h, View(), cs, k, p.id)
      {
        ghost var before := View();
        ok := AddContainer(cs[k], p.id);
        if !ok {
          HalfwayStuck(was, h, before, cs, k, p);
          ReleaseNames(p, cs[..k]);
          return;
        }
        HalfwayStep(was, h, before, cs, k, p.id);
        k := k + 1;
      }
    }
  }

  /** After `k` containers: outside the keys touched the registry is as before, and what is left decides the result. */
  ghost predicate Halfway(was: Registry, h: Registry, g: Registry, cs: seq<Container>, k: nat, pod: string)
    requires k <= |cs|
  {
    && g.pods == h.pods
    && g.containers - Ids(cs[..k]) == was.containers - Ids(cs[..k])
    && g.names - Names(cs[..k]) == was.names - Names(cs[..k])
    && k + Reserved(g, cs[k..], pod) == Reserved(h, cs, pod)
    && ReserveAll(g, cs[k..], pod) == ReserveAll(h, cs, pod)
  }

  lemma HalfwayStep(was: Registry, h: Registry, g: Registry, cs: seq<Container>, k: nat, pod: string)
    requires k < |cs| && Halfway(was, h, g, cs, k, pod) && ReserveContainer(g, cs[k], pod).1
    ensures Halfway(was, h, ReserveContainer(g, cs[k], pod).0, cs, k + 1, pod)
  {
    var g' := ReserveContainer(g, cs[k], pod).0;
    assert cs[k..][0] == cs[k] && cs[k..][1..] == cs[k + 1..];
    OneMore(cs, k);
    StillSame(g.containers, g'.containers, was.containers, Ids(cs[..k]), cs[k].id);
    StillSame(g.names, g'.names, was.names, Names(cs[..k]), cs[k].name);
  }

  lemma HalfwayStuck(was: Registry, h: Registry, g: Registry, cs: seq<Container>, k: nat, p: Pod)
    requires k < |cs| && Halfway(was, h, g, cs, k, p.id) && !ReserveContainer(g, cs[k], p.id).1
    requires h == ReservePod(was, p).0 && ReservePod(was, p).1
    ensures Reserved(h, cs, p.id) == k && RolledBack(g, p, cs[..k]) == RolledBack(was, p, cs[..k])
  {
    assert cs[k..][0] == cs[k];
    assert g.pods - {p.id} == was.pods - {p.id};
  }

  lemma OneMore(cs: seq<Container>, k: nat)
    requires k < |cs|
    ensures Ids(cs[..k + 1]) == Ids(cs[..k]) + {cs[k].id} && Names(cs[..k + 1]) == Names(cs[..k]) + {cs[k].name}
  {
    assert cs[..k + 1] == cs[..k] + [cs[k]];
  }

  lemma StillSame(before: map<string, string>, now: map<string, string>, was: map<string, string>, ks: set<string>, k: string)
    requires before - ks == was - ks && now - {k} == before - {k}
    ensures now - (ks + {k}) == was - (ks + {k})
  {
    assert now - (ks + {k}) == (now - {k}) - ks;
    assert before - (ks + {k}) == (before - {k}) - ks;
    assert before - (ks + {k}) == (before - ks) - {k};
    assert was - (ks + {k}) == (was - ks) - {k};
  }
}
