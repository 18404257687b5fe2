/** Setup and release as they run, against the chains and the port table of the host. */
module PortRulesHost {
  import opened PortText
  import opened PortRules
  import opened PortRulesTheorems

  /** A command that takes an inserted rule out again. */
  datatype Undo = UndoNat(r: Rules) | UndoFilter(f: Filter)

  function Nats(undo: seq<Undo>): seq<Rules> {
    if undo == [] then []
    else if undo[0].UndoNat? then [undo[0].r] + Nats(undo[1..])
    else Nats(undo[1..])
  }

  function Flts(undo: seq<Undo>): seq<Filter> {
    if undo == [] then []
    else if undo[0].UndoFilter? then [undo[0].f] + Flts(undo[1..])
    else Flts(undo[1..])
  }

  lemma {:induction false} UndoThen(undo: seq<Undo>, u: Undo)
    ensures Nats(undo + [u]) == if u.UndoNat? then Nats(undo) + [u.r] else Nats(undo)
    ensures Flts(undo + [u]) == if u.UndoFilter? then Flts(undo) + [u.f] else Flts(undo)
  {
    if undo == [] {
      assert undo + [u] == [u] && [u][1..] == [];
    } else {
      assert (undo + [u])[1..] == undo[1..] + [u];
      UndoThen(undo[1..], u);
    }
  }

  lemma {:induction false} InsertThen<T>(xs: seq<T>, x: T, chain: seq<T>)
    ensures InsertAll(xs + [x], chain) == [x] + InsertAll(xs, chain)
    decreases |xs|
  {
    if xs == [] {
      assert [] + [x] == [x] && [x][1..] == [];
    } else {
      assert (xs + [x])[1..] == xs[1..] + [x];
      InsertThen(xs[1..], x, [xs[0]] + chain);
    }
  }

  // ---- what a failed setup leaves ----

  /** The commands that would take out the rules one mapping inserts. */
  function UndoOne(ip: string, m: PortMapping, io: Commands, net: Net): seq<Undo> {
    var g := GenerateRules(ip, m);
    if g.Err? || g.value in net.dnat || PortMapUsed(net.dnat, m.protocol, g.value.from) || !io.forNat.Fine? then []
    else if !io.forFilter.Fine? then [UndoNat(g.value)]
    else [UndoNat(g.value), UndoFilter(FilterOf(g.value))]
  }

  /** And those of all mappings up to the first that fails. */
  function UndoAll(ip: string, maps: seq<PortMapping>, io: seq<Commands>, net: Net): seq<Undo>
    requires |io| == |maps|
  {
    if maps == [] then []
    else
      UndoOne(ip, maps[0], io[0], net)
      + match Judge(ip, maps[0], io[0], net)
        case Fail => []
        case Skip(_) => UndoAll(ip, maps[1..], io[1..], net)
        case Install(r) => UndoAll(ip, maps[1..], io[1..], Add(net, r))
  }

  /** The rule that is in although its command counts as failed, so that nobody takes it out again. */
  function StrayOne(ip: string, m: PortMapping, io: Commands, net: Net): seq<Undo> {
    var g := GenerateRules(ip, m);
    if g.Err? || g.value in net.dnat || PortMapUsed(net.dnat, m.protocol, g.value.from) then []
    else if io.forNat.Noisy? then [UndoNat(g.value)]
    else if io.forNat.Fine? && io.forFilter.Noisy? then [UndoFilter(FilterOf(g.value))]
    else []
  }

  /** The same for the first mapping that fails, if there is one. */
  function Strays(ip: string, maps: seq<PortMapping>, io: seq<Commands>, net: Net): seq<Undo>
    requires |io| == |maps|
  {
    if maps == [] then []
    else
      match Judge(ip, maps[0], io[0], net)
      case Fail => StrayOne(ip, maps[0], io[0], net)
      case Skip(_) => Strays(ip, maps[1..], io[1..], net)
      case Install(r) => Strays(ip, maps[1..], io[1..], Add(net, r))
  }

  /** The commands whose number is in `stuck`, or those whose number is not. */
  function Picked(undo: seq<Undo>, stuck: set<nat>, which: bool): seq<Undo> {
    if undo == [] then []
    else
      var n := |undo| - 1;
      Picked(undo[..n], stuck, which) + if (n in stuck) == which then [undo[n]] else []
  }

  function InsertRules(undo: seq<Undo>, net: Net): Net {
    net.(dnat := InsertAll(Nats(undo), net.dnat), filter := InsertAll(Flts(undo), net.filter))
  }

  function DeleteRules(undo: seq<Undo>, net: Net): Net {
    net.(dnat := DelAll(Nats(undo), net.dnat), filter := DelAll(Flts(undo), net.filter))
  }

  function DeleteRule(u: Undo, net: Net): Net {
    match u
    case UndoNat(r) => net.(dnat := Del(r, net.dnat))
    case UndoFilter(f) => net.(filter := Del(f, net.filter))
  }

  lemma DeleteThen(undo: seq<Undo>, u: Undo, net: Net)
    ensures DeleteRules(undo + [u], net) == DeleteRule(u, DeleteRules(undo, net))
  {
    UndoThen(undo, u);
    match u
    case UndoNat(r) => DelThen(Nats(undo), r, net.dnat);
    case UndoFilter(f) => DelThen(Flts(undo), f, net.filter);
  }

  /** The chains with all rules inserted, after the commands that do not get stuck. */
  function Reverted(undo: seq<Undo>, strays: seq<Undo>, stuck: set<nat>, net: Net): Net {
    DeleteRules(Picked(undo, stuck, false), InsertRules(undo + strays, net))
  }

  lemma SharesThen<T>(x: T, all: seq<T>, a: seq<T>, b: seq<T>)
    requires Shares(all, a, b)
    ensures Shares(all + [x], a + [x], b) && Shares(all + [x], a, b + [x])
  {
    assert multiset(all + [x]) == multiset(all) + multiset{x};
    assert multiset(a + [x]) == multiset(a) + multiset{x};
    assert multiset(b + [x]) == multiset(b) + multiset{x};
  }

  lemma {:induction false} PickedShares(undo: seq<Undo>, stuck: set<nat>)
    ensures Shares(Nats(undo), Nats(Picked(undo, stuck, true)), Nats(Picked(undo, stuck, false)))
    ensures Shares(Flts(undo), Flts(Picked(undo, stuck, true)), Flts(Picked(undo, stuck, false)))
  {
    if undo == [] {
    } else {
      var n := |undo| - 1;
      var front, u := undo[..n], undo[n];
      assert undo == front + [u];
      PickedShares(front, stuck);
      ShareOne(front, u, Picked(front, stuck, true), Picked(front, stuck, false));
      if n in stuck {
        assert Picked(front, stuck, false) + [] == Picked(front, stuck, false);
      } else {
        assert Picked(front, stuck, true) + [] == Picked(front, stuck, true);
      }
    }
  }

  lemma ShareOne(undo: seq<Undo>, u: Undo, a: seq<Undo>, b: seq<Undo>)
    requires Shares(Nats(undo), Nats(a), Nats(b)) && Shares(Flts(undo), Flts(a), Flts(b))
    ensures Shares(Nats(undo + [u]), Nats(a + [u]), Nats(b)) && Shares(Flts(undo + [u]), Flts(a + [u]), Flts(b))
    ensures Shares(Nats(undo + [u]), Nats(a), Nats(b + [u])) && Shares(Flts(undo + [u]), Flts(a), Flts(b + [u]))
  {
    UndoThen(undo, u);
    UndoThen(a, u);
    UndoThen(b, u);
    match u
    case UndoNat(r) => SharesThen(r, Nats(undo), Nats(a), Nats(b));
    case UndoFilter(f) => SharesThen(f, Flts(undo), Flts(a), Flts(b));
  }

  lemma PickedThen(undo: seq<Undo>, k: nat, stuck: set<nat>, which: bool)
    requires k < |undo|
    ensures var ran := Picked(undo[..k], stuck, which);
            Picked(undo[..k + 1], stuck, which) == if (k in stuck) == which then ran + [undo[k]] else ran
  {
    assert undo[..k + 1][..k] == undo[..k];
    var ran := Picked(undo[..k], stuck, which);
    assert ran + [] == ran;
  }

  lemma {:induction false} PickedNone(undo: seq<Undo>, stuck: set<nat>)
    ensures Picked(undo, stuck, true) == [] <==> forall i: nat :: i < |undo| ==> i !in stuck
  {
    if undo == [] {
    } else {
      PickedNone(undo[..|undo| - 1], stuck);
    }
  }

  /** The rules whose commands get stuck stay in front of the chain. */
  lemma LeftInFront<T>(all: seq<T>, kept: seq<T>, ran: seq<T>, chain: seq<T>) returns (left: seq<T>)
    requires Shares(all, kept, ran)
    ensures DelAll(ran, InsertAll(all, chain)) == left + chain && multiset(left) == multiset(kept)
  {
    var pre := InsertedInFront(all, chain);
    DelSome(ran, pre, chain);
    left := DelAll(ran, pre);
  }

  lemma {:induction false} UndoJoin(a: seq<Undo>, b: seq<Undo>)
    ensures Nats(a + b) == Nats(a) + Nats(b) && Flts(a + b) == Flts(a) + Flts(b)
  {
    if a == [] {
      assert a + b == b;
    } else {
      assert (a + b)[1..] == a[1..] + b;
      UndoJoin(a[1..], b);
    }
  }

  lemma SharesMore<T>(all: seq<T>, a: seq<T>, b: seq<T>, more: seq<T>)
    requires Shares(all, a, b)
    ensures Shares(all + more, a + more, b)
  {
    assert multiset(all + more) == multiset(all) + multiset(more);
    assert multiset(a + more) == multiset(a) + multiset(more);
  }

  /** Reverting leaves the stray rules and those whose commands get stuck, in front of chains that are as they were. */
  lemma RevertLeaves(undo: seq<Undo>, strays: seq<Undo>, stuck: set<nat>, net: Net)
    returns (nats: seq<Rules>, flts: seq<Filter>)
    ensures Reverted(undo, strays, stuck, net) == Net(nats + net.dnat, flts + net.filter, net.ports)
    ensures multiset(nats) == multiset(Nats(Picked(undo, stuck, true) + strays))
    ensures multiset(flts) == multiset(Flts(Picked(undo, stuck, true) + strays))
  {
    PickedShares(undo, stuck);
    var kept, ran := Picked(undo, stuck, true), Picked(undo, stuck, false);
    UndoJoin(undo, strays);
    UndoJoin(kept, strays);
    SharesMore(Nats(undo), Nats(kept), Nats(ran), Nats(strays));
    SharesMore(Flts(undo), Flts(kept), Flts(ran), Flts(strays));
    nats := LeftInFront(Nats(undo + strays), Nats(kept + strays), Nats(ran), net.dnat);
    flts := LeftInFront(Flts(undo + strays), Flts(kept + strays), Flts(ran), net.filter);
  }

  lemma InFrontOfNothing<T>(left: seq<T>, kept: seq<T>, chain: seq<T>)
    requires multiset(left) == multiset(kept)
    ensures left + chain == chain <==> kept == []
  {
    assert |multiset(left)| == |left| && |multiset(kept)| == |kept|;
    assert |left + chain| == |left| + |chain|;
  }

  /** The chains are as they were exactly when no rule is stray and no reverting command gets stuck. */
  lemma RevertRestoresIff(undo: seq<Undo>, strays: seq<Undo>, stuck: set<nat>, net: Net)
    ensures Reverted(undo, strays, stuck, net) == net
            <==> strays == [] && forall i: nat :: i < |undo| ==> i !in stuck
  {
    var nats, flts := RevertLeaves(undo, strays, stuck, net);
    var kept := Picked(undo, stuck, true) + strays;
    InFrontOfNothing(nats, Nats(kept), net.dnat);
    InFrontOfNothing(flts, Flts(kept), net.filter);
    assert kept == [] <==> Nats(kept) == [] && Flts(kept) == [];
    PickedNone(undo, stuck);
  }

  /**
   A setup that fails leaves everything as it was exactly when each mapping that would be
   installed comes behind one that would fail, no rule is stray, and no reverting command gets
   stuck.
   */
  lemma RollBackIff(ip: string, maps: seq<PortMapping>, io: seq<Commands>, stuck: set<nat>, net: Net)
    requires |io| == |maps| && !WalkAll(ip, maps, io, net).ok
    ensures var undo, strays := UndoAll(ip, maps, io, net), Strays(ip, maps, io, net);
            Reverted(undo, strays, stuck, net).(ports := AddAll(net, WalkAll(ip, maps, io, net).installed).ports) == net
            <==> Blocked(ip, maps, io, net) && strays == [] && forall i: nat :: i < |undo| ==> i !in stuck
  {
    PortsLeak(ip, maps, io, net);
    RevertRestoresIff(UndoAll(ip, maps, io, net), Strays(ip, maps, io, net), stuck, net);
  }

  lemma SpanThen(udp: bool, lo: nat, i: nat)
    requires lo <= i
    ensures PortSpan(udp, lo, i) == PortSpan(udp, lo, i - 1) + {Port(udp, i)}
  {
    forall p ensures p in PortSpan(udp, lo, i) <==> p in PortSpan(udp, lo, i - 1) || p == Port(udp, i) {
      InSpan(udp, lo, i, p);
      InSpan(udp, lo, i - 1, p);
    }
  }

  /** One more port taken. */
  lemma TakeOne(ports: map<Port, Target>, udp: bool, lo: nat, i: nat, ip: string, c: nat)
    requires lo <= i
    ensures (ports + Entries(udp, lo, i - 1, ip, c))[Port(udp, i) := Target(ip, c + (i - lo))]
            == ports + Entries(udp, lo, i, ip, c)
  {
    SpanThen(udp, lo, i);
    InSpan(udp, lo, i - 1, Port(udp, i));
  }

  /** All of them given back. */
  lemma UndoTake(ports: map<Port, Target>, udp: bool, lo: nat, hi: int, ip: string, c: nat)
    requires PortSpan(udp, lo, hi) !! ports.Keys
    ensures ports + Entries(udp, lo, hi, ip, c) - PortSpan(udp, lo, hi) == ports
  {
  }

  class Host {
    var dnat: seq<Rules>
    var filter: seq<Filter>
    var ports: map<Port, Target>

    ghost function View(): Net
      reads this
    {
      Net(dnat, filter, ports)
    }

    /** `PortMapper.AllocateMap`. */
    method AllocateMap(udp: bool, p: nat, ip: string, c: int) returns (ok: bool)
      modifies this`ports
      ensures ok <==> Port(udp, p) !in old(ports)
      ensures ports == if ok then old(ports)[Port(udp, p) := Target(ip, c)] else old(ports)
    {
      ok := Port(udp, p) !in ports;
      if ok {
        ports := ports[Port(udp, p) := Target(ip, c)];
      }
    }

    /** `PortMapper.ReleaseMap`, which complains about a port that is not in use but never fails. */
    method ReleaseMap(udp: bool, p: nat)
      modifies this`ports
      ensures ports == old(ports) - {Port(udp, p)}
    {
      ports := ports - {Port(udp, p)};
    }

    /** Takes the host ports of a mapping one by one; at the first that is taken, gives the others back. */
    method Claim(r: Rules) returns (ok: bool)
      requires r.from.begin <= r.from.end
      modifies this`ports
      ensures ok <==> HostPorts(r) !! old(ports).Keys
      ensures ports == if ok then old(ports) + PortsOf(r) else old(ports)
    {
      var lo, i, j := r.from.begin, r.from.begin, r.to.begin;
      ghost var c := r.to.begin;
      while i <= r.from.end
        invariant lo <= i <= r.from.end + 1 && j == c + (i - lo)
        invariant PortSpan(r.udp, lo, i - 1) !! old(ports).Keys
        invariant ports == old(ports) + Entries(r.udp, lo, i - 1, r.ip, c)
      {
        SpanThen(r.udp, lo, i);
        InSpan(r.udp, lo, i - 1, Port(r.udp, i));
        InSpan(r.udp, lo, r.from.end, Port(r.udp, i));
        TakeOne(old(ports), r.udp, lo, i, r.ip, c);
        ok := AllocateMap(r.udp, i, r.ip, j);
        if !ok {
          UndoTake(old(ports), r.udp, lo, i - 1, r.ip, c);
          GiveBack(r.udp, lo, i - 1);
          return false;
        }
        i, j := i + 1, j + 1;
      }
      ok := true;
    }

    /** Releases the ports from `hi` down to `lo`. */
    method GiveBack(udp: bool, lo: nat, hi: int)
      modifies this`ports
      ensures ports == old(ports) - PortSpan(udp, lo, hi)
    {
      var i := hi;
      while i >= lo
        invariant i <= hi && (i >= lo - 1 || i == hi)
        invariant ports == old(ports) - PortSpan(udp, if i < lo then lo else i + 1, hi)
      {
        ReleaseMap(udp, i);
        i := i - 1;
      }
    }

    /** Takes the inserted rules out again, in the order they went in; a command that gets stuck is passed over. */
    method Revert(undo: seq<Undo>, stuck: set<nat>)
      modifies this`dnat, this`filter
      ensures View() == DeleteRules(Picked(undo, stuck, false), old(View()))
    {
      var k := 0;
      while k < |undo|
        invariant k <= |undo|
        invariant View() == DeleteRules(Picked(undo[..k], stuck, false), old(View()))
      {
        PickedThen(undo, k, stuck, false);
        DeleteThen(Picked(undo[..k], stuck, false), undo[k], old(View()));
        if k !in stuck {
          match undo[k] {
            case UndoNat(r) => dnat := Del(r, dnat);
            case UndoFilter(f) => filter := Del(f, filter);
          }
        }
        k := k + 1;
      }
      assert undo[..k] == undo;
    }

    /** Gives up a setup that has inserted rules over the chains `was` of the start. */
    method Abandon(undo: seq<Undo>, ghost strays: seq<Undo>, stuck: set<nat>, ghost was: Net)
      requires Inserted(undo + strays, was)
      modifies this`dnat, this`filter
      ensures View() == Reverted(undo, strays, stuck, was).(ports := old(ports))
    {
      Revert(undo, stuck);
    }

    /** Mappings from `k` on are still to be set up. */
    ghost predicate Midway(ip: string, maps: seq<PortMapping>, io: seq<Commands>, k: nat, undo: seq<Undo>, was: Net)
      requires |io| == |maps| && k <= |maps|
      reads this
    {
      var w, rest := WalkAll(ip, maps, io, was), WalkAll(ip, maps[k..], io[k..], View());
      && undo + UndoAll(ip, maps[k..], io[k..], View()) == UndoAll(ip, maps, io, was)
      && Strays(ip, maps[k..], io[k..], View()) == Strays(ip, maps, io, was)
      && rest.ok == w.ok && AddAll(View(), rest.installed) == AddAll(was, w.installed)
    }

    /** The rules inserted so far, over the chains `was` of the start. */
    ghost predicate Inserted(undo: seq<Undo>, was: Net)
      reads this
    {
      View() == InsertRules(undo, was).(ports := ports)
    }

    /** Inserts a rule into the nat chain. */
    method InsertNat(r: Rules, ran: Ran, ghost undo: seq<Undo>, ghost was: Net)
      requires Inserted(undo, was)
      modifies this`dnat
      ensures Inserted(if ran.Refused? then undo else undo + [UndoNat(r)], was)
      ensures dnat == if ran.Refused? then old(dnat) else [r] + old(dnat)
    {
      InsertThen(Nats(undo), r, was.dnat);
      UndoThen(undo, UndoNat(r));
      if !ran.Refused? {
        dnat := [r] + dnat;
      }
    }

    method InsertFilter(f: Filter, ran: Ran, ghost undo: seq<Undo>, ghost was: Net)
      requires Inserted(undo, was)
      modifies this`filter
      ensures Inserted(if ran.Refused? then undo else undo + [UndoFilter(f)], was)
      ensures filter == if ran.Refused? then old(filter) else [f] + old(filter)
    {
      InsertThen(Flts(undo), f, was.filter);
      UndoThen(undo, UndoFilter(f));
      if !ran.Refused? {
        filter := [f] + filter;
      }
    }

    /** One mapping: the rules that its commands insert are added to the list for reverting. */
    method InstallOne(ip: string, m: PortMapping, io: Commands, undo: seq<Undo>, ghost was: Net)
      returns (ok: bool, undo': seq<Undo>)
      requires Inserted(undo, was)
      modifies this
      ensures undo' == undo + UndoOne(ip, m, io, old(View()))
      ensures Inserted(if ok then undo' else undo' + StrayOne(ip, m, io, old(View())), was)
      ensures match Judge(ip, m, io, old(View()))
              case Fail => !ok && ports == old(ports)
              case Skip(_) => ok && View() == old(View())
              case Install(r) => ok && View() == Add(old(View()), r)
    {
      undo' := undo;
      assert undo + [] == undo;
      var g := GenerateRules(ip, m);
      if g.Err? {
        return false, undo';
      }
      var r := g.value;
      if r in dnat {
        return true, undo';
      }
      if PortMapUsed(dnat, m.protocol, r.from) {
        return false, undo';
      }
      InsertNat(r, io.forNat, undo', was);
      if !io.forNat.Fine? {
        return false, undo';
      }
      undo' := undo' + [UndoNat(r)];
      assert undo' + [] == undo';
      InsertFilter(FilterOf(r), io.forFilter, undo', was);
      if !io.forFilter.Fine? {
        return false, undo';
      }
      undo' := undo' + [UndoFilter(FilterOf(r))];
      assert undo' == undo + [UndoNat(r), UndoFilter(FilterOf(r))] && undo' + [] == undo';
      ok := Claim(r);
    }

    /**
     `setupIptablesPortMaps`: either every mapping is in place, or the rules are reverted but
     for a stray one, where the commands numbered in `stuck` fail, and of the ports only those
     of the mappings before the failing one are taken.
     */
    method Setup(ip: string, maps: seq<PortMapping>, io: seq<Commands>, stuck: set<nat>) returns (ok: bool)
      requires |io| == |maps|
      modifies this
      ensures var w := WalkAll(ip, maps, io, old(View()));
              var full := AddAll(old(View()), w.installed);
              && ok == w.ok
              && View() == if ok then full
                           else
                             Reverted(UndoAll(ip, maps, io, old(View())), Strays(ip, maps, io, old(View())), stuck, old(View()))
                             .(ports := full.ports)
    {
      var undo, k := [], 0;
      ghost var was := View();
      assert maps[0..] == maps && io[0..] == io;
      while k < |maps|
        invariant k <= |maps| && Inserted(undo, was) && Midway(ip, maps, io, k, undo, was)
      {
        WalkNext(ip, maps, io, k, View());
        UndoNext(ip, maps, io, k, View(), undo);
        ghost var strays := StrayOne(ip, maps[k], io[k], View());
        ok, undo := InstallOne(ip, maps[k], io[k], undo, was);
        if !ok {
          assert undo + [] == undo;
          Abandon(undo, strays, stuck, was);
          return false;
        }
        k := k + 1;
      }
      ok := true;
    }

    /** `releaseIptablesPortMaps`. */
    method Release(ip: string, maps: seq<PortMapping>, dels: seq<Deletes>)
      requires |dels| == |maps|
      modifies this
      ensures View() == ReleaseAll(ip, maps, dels, old(View()))
    {
      var k := 0;
      assert maps[0..] == maps && dels[0..] == dels;
      while k < |maps|
        invariant k <= |maps|
        invariant ReleaseAll(ip, maps[k..], dels[k..], View()) == ReleaseAll(ip, maps, dels, old(View()))
      {
        assert maps[k..][0] == maps[k] && maps[k..][1..] == maps[k + 1..];
        assert dels[k..][0] == dels[k] && dels[k..][1..] == dels[k + 1..];
        ReleaseMapping(ip, maps[k], dels[k]);
        k := k + 1;
      }
    }

    method ReleaseMapping(ip: string, m: PortMapping, del: Deletes)
      modifies this
      ensures View() == ReleaseOne(ip, m, del, old(View()))
    {
      var lo, hi, udp := m.from.begin, Normal(m.from).end, IsUdp(m.protocol);
      var i: nat := lo;
      assert ports - {} == ports;
      while i <= hi
        invariant lo <= i && (i <= hi + 1 || i == lo)
        invariant dnat == old(dnat) && filter == old(filter) && ports == old(ports) - PortSpan(udp, lo, i - 1)
      {
        SpanThen(udp, lo, i);
        ReleaseMap(udp, i);
        i := i + 1;
      }
      assert lo > hi ==> PortSpan(udp, lo, i - 1) == PortSpan(udp, lo, hi);
      var g := GenerateRules(ip, m);
      if g.Ok? {
        if del.ofNat {
          dnat := Del(g.value, dnat);
        }
        if del.ofFilter {
          filter := Del(FilterOf(g.value), filter);
        }
      }
    }
  }

  lemma UndoNext(ip: string, maps: seq<PortMapping>, io: seq<Commands>, k: nat, net: Net, undo: seq<Undo>)
    requires |io| == |maps| && k < |maps|
    ensures undo + UndoAll(ip, maps[k..], io[k..], net)
            == undo + UndoOne(ip, maps[k], io[k], net)
               + match Judge(ip, maps[k], io[k], net)
                 case Fail => []
                 case Skip(_) => UndoAll(ip, maps[k + 1..], io[k + 1..], net)
                 case Install(r) => UndoAll(ip, maps[k + 1..], io[k + 1..], Add(net, r))
    ensures Strays(ip, maps[k..], io[k..], net)
            == match Judge(ip, maps[k], io[k], net)
               case Fail => StrayOne(ip, maps[k], io[k], net)
               case Skip(_) => Strays(ip, maps[k + 1..], io[k + 1..], net)
               case Install(r) => Strays(ip, maps[k + 1..], io[k + 1..], Add(net, r))
  {
    assert maps[k..][0] == maps[k] && maps[k..][1..] == maps[k + 1..];
    assert io[k..][0] == io[k] && io[k..][1..] == io[k + 1..];
    var one, v := UndoOne(ip, maps[k], io[k], net), Judge(ip, maps[k], io[k], net);
    match v
    case Fail => Join3(undo, one, []);
    case Skip(_) => Join3(undo, one, UndoAll(ip, maps[k + 1..], io[k + 1..], net));
    case Install(r) => Join3(undo, one, UndoAll(ip, maps[k + 1..], io[k + 1..], Add(net, r)));
  }

  lemma Join3<T>(a: seq<T>, b: seq<T>, c: seq<T>)
    ensures a + b + c == a + (b + c)
  {
  }

  lemma WalkNext(ip: string, maps: seq<PortMapping>, io: seq<Commands>, k: nat, net: Net)
    requires |io| == |maps| && k < |maps|
    ensures var w := WalkAll(ip, maps[k..], io[k..], net);
            match Judge(ip, maps[k], io[k], net)
            case Fail => !w.ok && AddAll(net, w.installed) == net
            case Skip(_) =>
              var rest := WalkAll(ip, maps[k + 1..], io[k + 1..], net);
              rest.ok == w.ok && rest.installed == w.installed
            case Install(r) =>
              var rest := WalkAll(ip, maps[k + 1..], io[k + 1..], Add(net, r));
              rest.ok == w.ok && AddAll(Add(net, r), rest.installed) == AddAll(net, w.installed)
  {
    assert maps[k..][0] == maps[k] && maps[k..][1..] == maps[k + 1..];
    assert io[k..][0] == io[k] && io[k..][1..] == io[k + 1..];
    var v := Judge(ip, maps[k], io[k], net);
    if v.Install? {
      var rest := WalkAll(ip, maps[k + 1..], io[k + 1..], Add(net, v.rules)).installed;
      assert ([v.rules] + rest)[1..] == rest;
    }
  }
}
