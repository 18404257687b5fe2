/**
 Port ranges and port mappings as text: the parser and printer of the pod specification
 (`types`) and the second parser of the host side (`networking/portmapping`).
 */
module PortText {
  import opened Text

  const MAX_PORT: nat := 65535

  datatype Result<+T> = Ok(value: T) | Err

  /** What `strconv.ParseUint(s, 10, 16)` accepts. */
  function ParsePort(s: string): (r: Result<nat>)
    ensures r.Ok? ==> r.value <= MAX_PORT
  {
    if s != "" && AllDigits(s) && Value(s) <= MAX_PORT then Ok(Value(s)) else Err
  }

  lemma ParseDecimal(n: nat)
    requires n <= MAX_PORT
    ensures ParsePort(Decimal(n)) == Ok(n)
  {
    ValueOfDecimal(n);
  }

  // ---- the pod specification ----

  datatype Range = Range(start: nat, end: nat) {
    predicate IsRange() {
      start != end
    }

    function Count(): int {
      end - start + 1
    }

    predicate Valid() {
      start <= end <= MAX_PORT
    }

    predicate Has(p: int) {
      start <= p <= end
    }
  }

  function ReadRange(p: string): (r: Result<Range>)
    ensures r.Ok? ==> r.value.Valid()
  {
    var dash := IndexChar(p, '-');
    if p == "" then Ok(Range(1025, MAX_PORT))
    else if dash >= 0 then
      var start, end := ParsePort(p[..dash]), ParsePort(p[dash + 1..]);
      if start.Err? || end.Err? || end.value < start.value then Err else Ok(Range(start.value, end.value))
    else
      var start := ParsePort(p);
      if start.Err? then Err else Ok(Range(start.value, start.value))
  }

  function RangeText(r: Range): string {
    if r.IsRange() then Decimal(r.start) + "-" + Decimal(r.end) else Decimal(r.start)
  }

  /** A mapping as the user writes it. */
  datatype Spec = Spec(protocol: string, hostPort: string, containerPort: string)

  /** A mapping as it is worked on. */
  datatype Mapping = Mapping(host: Range, container: Range, protocol: string) {
    predicate IsRange() {
      container.IsRange() && host.IsRange()
    }

    predicate NotDetermined() {
      !container.IsRange() && host.IsRange()
    }

    /** What reading a mapping guarantees of it. */
    predicate Valid() {
      && host.Valid() && container.Valid()
      && (container.IsRange() ==> container.Count() == host.Count())
    }
  }

  function ReadProtocol(p: string): (r: Result<string>)
    ensures r.Ok? ==> r.value == "tcp" || r.value == "udp"
  {
    if p == "udp" then Ok("udp") else if p == "tcp" || p == "" then Ok("tcp") else Err
  }

  function ReadMapping(pm: Spec): (r: Result<Mapping>)
    ensures r.Ok? ==> r.value.Valid() && r.value.protocol in {"tcp", "udp"}
  {
    var proto, h, c := ReadProtocol(pm.protocol), ReadRange(pm.hostPort), ReadRange(pm.containerPort);
    if proto.Err? || h.Err? || c.Err? then Err
    else if c.value.IsRange() && c.value.Count() != h.value.Count() then Err
    else Ok(Mapping(h.value, c.value, proto.value))
  }

  function ToSpec(m: Mapping): Spec {
    Spec(m.protocol, RangeText(m.host), RangeText(m.container))
  }

  function Formalize(pm: Spec): Result<Spec> {
    var f := ReadMapping(pm);
    if f.Err? then Err else Ok(ToSpec(f.value))
  }

  lemma {:induction false} NoDash(s: string)
    requires '-' !in s
    ensures IndexChar(s, '-') == -1
  {
    if s == [] {
    } else {
      assert s[0] in s && forall c :: c in s[1..] ==> c in s;
      NoDash(s[1..]);
    }
  }

  lemma DashAt(a: string, b: string)
    requires AllDigits(a)
    ensures var s := a + "-" + b; var i := IndexChar(s, '-'); i == |a| && s[..i] == a && s[i + 1..] == b
  {
    var s := a + "-" + b;
    assert s[|a|] == '-' && s[..|a|] == a;
    IndexCharAt(s, '-', |a|);
  }

  /** Reading undoes printing. */
  lemma ReadPrintedRange(r: Range)
    requires r.Valid()
    ensures ReadRange(RangeText(r)) == Ok(r)
  {
    ParseDecimal(r.start);
    ParseDecimal(r.end);
    if r.IsRange() {
      DashAt(Decimal(r.start), Decimal(r.end));
    } else {
      NoDash(Decimal(r.start));
    }
  }

  /** Reading undoes printing, for a whole mapping. */
  lemma ReadPrintedMapping(m: Mapping)
    requires m.Valid() && m.protocol in {"tcp", "udp"}
    ensures ReadMapping(ToSpec(m)) == Ok(m)
  {
    ReadPrintedRange(m.host);
    ReadPrintedRange(m.container);
  }

  /** The normal form means the same mapping, is its own normal form, and has no empty field. */
  lemma FormalizeIdempotent(pm: Spec)
    requires Formalize(pm).Ok?
    ensures ReadMapping(Formalize(pm).value) == ReadMapping(pm)
    ensures Formalize(Formalize(pm).value) == Formalize(pm)
    ensures var f := Formalize(pm).value; f.hostPort != "" && f.containerPort != "" && f.protocol != ""
  {
    ReadPrintedMapping(ReadMapping(pm).value);
  }

  // ---- the host side ----

  datatype PortRange = PortRange(begin: nat, end: nat)

  datatype PortMapping = PortMapping(protocol: string, to: PortRange, from: PortRange)

  function NewPortRange(r: string): (p: Result<PortRange>)
    ensures p.Ok? ==> p.value.begin <= MAX_PORT && p.value.end <= MAX_PORT
  {
    var dash := IndexChar(r, '-');
    var b := ParsePort(if dash < 0 then r else r[..dash]);
    var e := if dash < 0 then b else ParsePort(r[dash + 1..]);
    if b.Err? || e.Err? then Err else Ok(PortRange(b.value, e.value))
  }

  function NewPortMapping(proto: string, from: string, to: string): (m: Result<PortMapping>)
    ensures m.Ok? ==> m.value.protocol in {"tcp", "udp"}
  {
    var p := if proto == "" then "tcp" else proto;
    var f, t := NewPortRange(from), NewPortRange(to);
    if p !in {"tcp", "udp"} || f.Err? || t.Err? then Err else Ok(PortMapping(p, t.value, f.value))
  }

  /**
   On non-empty text the two range parsers differ in one thing only: the host side does not
   refuse a range that runs backwards.
   */
  lemma SameBounds(p: string, r: Range)
    requires p != ""
    ensures ReadRange(p) == Ok(r) <==> NewPortRange(p) == Ok(PortRange(r.start, r.end)) && r.start <= r.end
  {
  }

  /** The empty text is the default range on one side and an error on the other. */
  lemma EmptyRange()
    ensures ReadRange("") == Ok(Range(1025, MAX_PORT)) && NewPortRange("").Err?
  {
    assert ParsePort("").Err?;
  }

  /** The rules of a mapping: host ports `from` of `protocol` go to ports `to` of address `ip`. */
  datatype Rules = Rules(ip: string, udp: bool, from: PortRange, to: PortRange)

  /** The single port that an end of 0 stands for. */
  function Normal(r: PortRange): PortRange {
    if r.end == 0 then PortRange(r.begin, r.begin) else r
  }

  /** `strings.EqualFold(s, "udp")`. */
  predicate IsUdp(s: string) {
    |s| == 3 && s[0] in {'u', 'U'} && s[1] in {'d', 'D'} && s[2] in {'p', 'P'}
  }

  function GenerateRules(ip: string, m: PortMapping): Result<Rules> {
    var from, to := Normal(m.from), Normal(m.to);
    if from.end < from.begin || to.end < to.begin then Err
    else if from.end != from.begin && from.end - from.begin != to.end - to.begin then Err
    else Ok(Rules(ip, IsUdp(m.protocol), from, to))
  }

  /** A mapping as the host side holds it. */
  function HostSide(m: Mapping): PortMapping {
    PortMapping(m.protocol, PortRange(m.container.start, m.container.end), PortRange(m.host.start, m.host.end))
  }

  lemma ProtocolFlag(p: string)
    requires p in {"tcp", "udp"}
    ensures IsUdp(p) <==> p == "udp"
  {
  }

  /** Rules can be made for a mapping exactly when its host port is determined; they send its host ports to its container ports. */
  lemma RulesForMapping(m: Mapping, ip: string)
    requires m.Valid() && m.protocol in {"tcp", "udp"}
    ensures GenerateRules(ip, HostSide(m))
            == if m.NotDetermined() then Err
               else Ok(Rules(ip, m.protocol == "udp", HostSide(m).from, HostSide(m).to))
  {
    ProtocolFlag(m.protocol);
  }

  /** A formalized mapping always passes the host-side parser, with the same bounds, and rules can be made for it exactly when its host port is determined. */
  lemma RulesForFormalized(pm: Spec, ip: string)
    requires Formalize(pm).Ok?
    ensures var f, m := Formalize(pm).value, ReadMapping(pm).value;
            && NewPortMapping(f.protocol, f.hostPort, f.containerPort) == Ok(HostSide(m))
            && (GenerateRules(ip, HostSide(m)).Ok? <==> !m.NotDetermined())
  {
    var m := ReadMapping(pm).value;
    FormalizeIdempotent(pm);
    ReadPrintedRange(m.host);
    ReadPrintedRange(m.container);
    SameBounds(RangeText(m.host), m.host);
    SameBounds(RangeText(m.container), m.container);
    RulesForMapping(m, ip);
  }
}
