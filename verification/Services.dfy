/**
 A pod's services and the IPVS table inside its sandbox. Services become commands of
 `ipvsadm`: adding a service or a destination that exists fails, and so does deleting a
 service that does not; a list of commands fails with its first failing one.
 */
module Services {
  import opened Basics
  import opened PortText

  datatype Backend = Backend(ip: string, port: int)

  datatype Service = Service(ip: string, port: int, protocol: string, hosts: seq<Backend>)

  /** How services are told apart in the specification: the protocol is compared as written. */
  datatype RawKey = RawKey(ip: string, port: int, protocol: string)

  /** How they are told apart in the table. */
  datatype Key = Key(ip: string, port: int, udp: bool)

  type Table = map<Key, set<Backend>>

  function Raw(s: Service): RawKey {
    RawKey(s.ip, s.port, s.protocol)
  }

  /** `strings.ToLower(s) == "tcp"`. */
  predicate IsTcp(s: string) {
    |s| == 3 && s[0] in {'t', 'T'} && s[1] in {'c', 'C'} && s[2] in {'p', 'P'}
  }

  predicate Supported(s: Service) {
    IsTcp(s.protocol) || IsUdp(s.protocol)
  }

  function KeyOf(s: Service): Key {
    Key(s.ip, s.port, IsUdp(s.protocol))
  }

  datatype Command = AddService(key: Key) | AddDest(key: Key, dest: Backend) | DelService(key: Key) | Clear

  datatype Operation = Adding | Deleting

  // ---- generating commands ----

  function Dests(k: Key, hosts: seq<Backend>): seq<Command> {
    if hosts == [] then [] else [AddDest(k, hosts[0])] + Dests(k, hosts[1..])
  }

  /** `generateIPVSCmd`. */
  function Generate(s: Service, op: Operation): Option<seq<Command>> {
    if !Supported(s) then None
    else
      match op
      case Adding =>
        if s.ip == "" || s.port == 0 then None else Some([AddService(KeyOf(s))] + Dests(KeyOf(s), s.hosts))
      case Deleting => Some([DelService(KeyOf(s))])
  }

  function Patch(srvs: seq<Service>, op: Operation): Option<seq<Command>> {
    if srvs == [] then Some([])
    else
      var first, rest := Generate(srvs[0], op), Patch(srvs[1..], op);
      if first.None? || rest.None? then None else Some(first.value + rest.value)
  }

  // ---- the table ----

  function ExecOne(c: Command, t: Table): Option<Table> {
    match c
    case AddService(k) => if k in t then None else Some(t[k := {}])
    case AddDest(k, d) => if k !in t || d in t[k] then None else Some(t[k := t[k] + {d}])
    case DelService(k) => if k in t then Some(t - {k}) else None
    case Clear => Some(map[])
  }

  function Exec(cs: seq<Command>, t: Table): Option<Table> {
    if cs == [] then Some(t)
    else
      var next := ExecOne(cs[0], t);
      if next.None? then None else Exec(cs[1..], next.value)
  }

  function Committed(srvs: seq<Service>, op: Operation, t: Table): Option<Table> {
    var patch := Patch(srvs, op);
    if patch.None? then None else Exec(patch.value, t)
  }

  // ---- what the table should be ----

  function Elems(hosts: seq<Backend>): set<Backend> {
    set b | b in hosts
  }

  function Hosts(s: Service): set<Backend> {
    Elems(s.hosts)
  }

  /** A service that can be put into a table. */
  ghost predicate Good(s: Service) {
    Supported(s) && s.ip != "" && s.port != 0 && NoDup(s.hosts)
  }

  predicate UniqueKeys(spec: seq<Service>) {
    forall i, j :: 0 <= i < j < |spec| ==> KeyOf(spec[i]) != KeyOf(spec[j])
  }

  /** The table that a specification denotes. */
  function Denoted(spec: seq<Service>): Table {
    if spec == [] then map[] else Denoted(spec[1..])[KeyOf(spec[0]) := Hosts(spec[0])]
  }

  /** Table and specification say the same, and each service has a key of its own. */
  ghost predicate Agree(spec: seq<Service>, t: Table) {
    UniqueKeys(spec) && (forall s :: s in spec ==> Good(s)) && t == Denoted(spec)
  }
}
