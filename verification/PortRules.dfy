/**
 Installing and releasing the rules of port mappings. A chain is a sequence of rules: a rule
 is inserted at the head, and deleting one removes its first occurrence. Host ports in use are
 kept in a map. Chains are only written by this component, and a command that fails leaves its
 chain as it was.
 */
module PortRules {
  import opened PortText

  datatype Filter = Filter(ip: string, udp: bool, to: PortRange)

  function FilterOf(r: Rules): Filter {
    Filter(r.ip, r.udp, r.to)
  }

  datatype Port = Port(udp: bool, number: nat)

  datatype Target = Target(ip: string, port: int)

  datatype Net = Net(dnat: seq<Rules>, filter: seq<Filter>, ports: map<Port, Target>)

  /** The numbers from `lo` to `hi` as ports of one protocol. */
  function PortSpan(udp: bool, lo: nat, hi: int): set<Port>
    decreases hi - lo
  {
    if lo > hi then {} else {Port(udp, lo)} + PortSpan(udp, lo + 1, hi)
  }

  lemma {:induction false} InSpan(udp: bool, lo: nat, hi: int, p: Port)
    ensures p in PortSpan(udp, lo, hi) <==> p.udp == udp && lo <= p.number <= hi
    decreases hi - lo
  {
    if lo > hi {
    } else {
      InSpan(udp, lo + 1, hi, p);
    }
  }

  function HostPorts(r: Rules): set<Port> {
    PortSpan(r.udp, r.from.begin, r.from.end)
  }

  /** The entries of ports `lo` to `hi`, of which the first goes to container port `c`. */
  function Entries(udp: bool, lo: nat, hi: int, ip: string, c: nat): map<Port, Target> {
    map p | p in PortSpan(udp, lo, hi) :: Target(ip, c + (p.number - lo))
  }

  function PortsOf(r: Rules): map<Port, Target> {
    Entries(r.udp, r.from.begin, r.from.end, r.ip, r.to.begin)
  }

  // ---- chains ----

  /** Deletes the first occurrence, if there is one. */
  function Del<T(==)>(x: T, chain: seq<T>): seq<T> {
    if chain == [] then []
    else if chain[0] == x then chain[1..]
    else [chain[0]] + Del(x, chain[1..])
  }

  function DelAll<T(==)>(xs: seq<T>, chain: seq<T>): seq<T> {
    if xs == [] then chain else DelAll(xs[1..], Del(xs[0], chain))
  }

  function InsertAll<T>(xs: seq<T>, chain: seq<T>): seq<T> {
    if xs == [] then chain else InsertAll(xs[1..], [xs[0]] + chain)
  }

  // ---- setting up ----

  function ProtocolName(udp: bool): string {
    if udp then "udp" else "tcp"
  }

  /** A rule of the chain already uses a host port of the range. */
  predicate PortMapUsed(chain: seq<Rules>, protocol: string, from: PortRange) {
    exists i :: 0 <= i < |chain| && ProtocolName(chain[i].udp) == protocol && Hits(chain[i].from, from)
  }

  /** The test that is made of two ranges. */
  predicate Hits(used: PortRange, from: PortRange) {
    || used.begin <= from.begin <= used.end
    || used.begin <= from.end <= used.end
    || (from.begin < used.begin && used.end < from.end)
  }

  predicate Within(r: PortRange, p: nat) {
    r.begin <= p <= r.end
  }

  /** The test says exactly whether two ranges meet. */
  lemma HitsIsOverlap(used: PortRange, from: PortRange)
    requires used.begin <= used.end && from.begin <= from.end
    ensures Hits(used, from) <==> exists p: nat :: Within(used, p) && Within(from, p)
  {
    if Hits(used, from) {
      var p := if from.begin < used.begin then used.begin else from.begin;
      assert Within(used, p) && Within(from, p);
    }
  }

  /** What becomes of an insert command; a rule that is in although the command printed something counts as a failure. */
  datatype Ran = Fine | Noisy | Refused

  /** The two insert commands of a mapping. */
  datatype Commands = Commands(forNat: Ran, forFilter: Ran)

  datatype Verdict = Fail | Skip(rules: Rules) | Install(rules: Rules)

  /** What becomes of one mapping. */
  function Judge(ip: string, m: PortMapping, io: Commands, net: Net): Verdict {
    var g := GenerateRules(ip, m);
    if g.Err? then Fail
    else if g.value in net.dnat then Skip(g.value)
    else if PortMapUsed(net.dnat, m.protocol, g.value.from) || !io.forNat.Fine? || !io.forFilter.Fine? then Fail
    else if HostPorts(g.value) !! net.ports.Keys then Install(g.value)
    else Fail
  }

  function Add(net: Net, r: Rules): Net {
    Net([r] + net.dnat, [FilterOf(r)] + net.filter, net.ports + PortsOf(r))
  }

  function AddAll(net: Net, rs: seq<Rules>): Net
    decreases rs
  {
    if rs == [] then net else AddAll(Add(net, rs[0]), rs[1..])
  }

  /** The mappings up to the first that fails: those installed and those found in place. */
  datatype Walk = Walk(installed: seq<Rules>, skipped: seq<Rules>, ok: bool)

  function WalkAll(ip: string, maps: seq<PortMapping>, io: seq<Commands>, net: Net): Walk
    requires |io| == |maps|
  {
    if maps == [] then Walk([], [], true)
    else
      match Judge(ip, maps[0], io[0], net)
      case Fail => Walk([], [], false)
      case Skip(r) => var w := WalkAll(ip, maps[1..], io[1..], net); w.(skipped := [r] + w.skipped)
      case Install(r) => var w := WalkAll(ip, maps[1..], io[1..], Add(net, r)); w.(installed := [r] + w.installed)
  }

  // ---- releasing ----

  function ReleasedPorts(m: PortMapping): set<Port> {
    PortSpan(IsUdp(m.protocol), m.from.begin, Normal(m.from).end)
  }

  /** Whether the two delete commands of a mapping work; nobody looks at it. */
  datatype Deletes = Deletes(ofNat: bool, ofFilter: bool)

  function ReleaseOne(ip: string, m: PortMapping, del: Deletes, net: Net): Net {
    var ports := net.ports - ReleasedPorts(m);
    var g := GenerateRules(ip, m);
    if g.Err? then net.(ports := ports)
    else
      Net(if del.ofNat then Del(g.value, net.dnat) else net.dnat,
          if del.ofFilter then Del(FilterOf(g.value), net.filter) else net.filter, ports)
  }

  function ReleaseAll(ip: string, maps: seq<PortMapping>, dels: seq<Deletes>, net: Net): Net
    requires |dels| == |maps|
  {
    if maps == [] then net else ReleaseAll(ip, maps[1..], dels[1..], ReleaseOne(ip, maps[0], dels[0], net))
  }

  function AllWork(n: nat): (dels: seq<Deletes>)
    ensures |dels| == n && forall i :: 0 <= i < n ==> dels[i] == Deletes(true, true)
  {
    seq(n, _ => Deletes(true, true))
  }

  /** Filling in the end of a range, as making the rules does in place, does not change the rules. */
  lemma NormalIsStable(ip: string, m: PortMapping)
    ensures GenerateRules(ip, PortMapping(m.protocol, Normal(m.to), Normal(m.from))) == GenerateRules(ip, m)
  {
  }
}
