/** Exact roll back, and what a release after a successful setup restores. */
module PortRulesTheorems {
  import opened PortText
  import opened PortRules

  // ---- deleting what was inserted ----

  lemma {:induction false} DelMissing<T>(x: T, chain: seq<T>)
    requires x !in chain
    ensures Del(x, chain) == chain
  {
    if chain == [] {
    } else {
      assert chain == [chain[0]] + chain[1..];
      DelMissing(x, chain[1..]);
    }
  }

  lemma {:induction false} DelPrefix<T>(x: T, pre: seq<T>, base: seq<T>)
    ensures Del(x, pre + base) == if x in pre then Del(x, pre) + base else pre + Del(x, base)
  {
    if pre == [] {
      assert pre + base == base;
    } else {
      var rest := pre[1..];
      assert (pre + base)[0] == pre[0] && (pre + base)[1..] == rest + base;
      assert x in pre <==> x == pre[0] || x in rest;
      if pre[0] != x {
        DelPrefix(x, rest, base);
        Regroup(pre[0], Del(x, rest), base);
        Regroup(pre[0], rest, Del(x, base));
        assert [pre[0]] + rest == pre;
      }
    }
  }

  lemma Regroup<T>(x: T, a: seq<T>, b: seq<T>)
    ensures [x] + (a + b) == [x] + a + b
  {
  }

  lemma {:induction false} DelCount<T>(x: T, chain: seq<T>)
    ensures multiset(Del(x, chain)) == multiset(chain) - multiset{x}
  {
    if chain == [] {
    } else {
      HeadCount(chain);
      DelCount(x, chain[1..]);
    }
  }

  lemma InMultiset<T>(s: seq<T>, x: T)
    ensures x in s <==> multiset(s)[x] > 0
  {
  }

  lemma HeadCount<T>(s: seq<T>)
    requires s != []
    ensures multiset(s) == multiset{s[0]} + multiset(s[1..])
  {
    assert s == [s[0]] + s[1..];
  }

  /** Deleting some of what was put in front leaves the rest of it there. */
  lemma {:induction false} DelSome<T>(ds: seq<T>, pre: seq<T>, base: seq<T>)
    requires multiset(ds) <= multiset(pre)
    ensures DelAll(ds, pre + base) == DelAll(ds, pre) + base
    ensures multiset(DelAll(ds, pre)) == multiset(pre) - multiset(ds)
    decreases |ds|
  {
    if ds == [] {
    } else {
      var x := ds[0];
      HeadCount(ds);
      InMultiset(pre, x);
      assert multiset(ds)[x] > 0;
      DelPrefix(x, pre, base);
      DelCount(x, pre);
      DelSome(ds[1..], Del(x, pre), base);
    }
  }

  lemma {:induction false} DelThen<T>(ds: seq<T>, x: T, chain: seq<T>)
    ensures DelAll(ds + [x], chain) == Del(x, DelAll(ds, chain))
    decreases |ds|
  {
    if ds == [] {
      assert [] + [x] == [x] && [x][1..] == [];
    } else {
      assert (ds + [x])[1..] == ds[1..] + [x];
      DelThen(ds[1..], x, Del(ds[0], chain));
    }
  }

  /** More deletions than the prefix has rules eat into the base. */
  lemma {:induction false} DelShrinks<T>(ds: seq<T>, pre: seq<T>, base: seq<T>)
    requires multiset(pre) <= multiset(ds)
    ensures |DelAll(ds, pre + base)| <= |base|
    decreases |ds|
  {
    if ds == [] {
      assert |multiset(pre)| == 0;
    } else {
      var x := ds[0];
      HeadCount(ds);
      DelPrefix(x, pre, base);
      InMultiset(pre, x);
      if x in pre {
        DelCount(x, pre);
        DelShrinks(ds[1..], Del(x, pre), base);
      } else {
        DelShrinks(ds[1..], pre, Del(x, base));
        DelLength(x, base);
      }
    }
  }

  lemma DelLength<T>(x: T, chain: seq<T>)
    ensures |Del(x, chain)| == if x in chain then |chain| - 1 else |chain|
  {
    DelCount(x, chain);
    assert |multiset(Del(x, chain))| == |multiset(chain) - multiset{x}|;
    InMultiset(chain, x);
  }

  /** A deletion for which no rule was inserted. */
  ghost predicate Extra<T(!new)>(ds: seq<T>, pre: seq<T>, d: T) {
    multiset(ds)[d] > multiset(pre)[d]
  }

  /** Deleting at least what was put in front gives the base back exactly when no extra deletion finds a rule in it. */
  lemma {:induction false} DelBack<T(!new)>(ds: seq<T>, pre: seq<T>, base: seq<T>)
    requires multiset(pre) <= multiset(ds)
    ensures DelAll(ds, pre + base) == base <==> forall d :: Extra(ds, pre, d) ==> d !in base
    decreases |ds|
  {
    if ds == [] {
      assert |multiset(pre)| == 0;
      assert pre + base == base;
    } else {
      var x, rest := ds[0], ds[1..];
      HeadCount(ds);
      DelPrefix(x, pre, base);
      InMultiset(pre, x);
      if x in pre {
        DelCount(x, pre);
        DelBack(rest, Del(x, pre), base);
        assert forall d :: Extra(rest, Del(x, pre), d) <==> Extra(ds, pre, d);
      } else if x in base {
        assert Extra(ds, pre, x);
        DelShrinks(rest, pre, Del(x, base));
        DelLength(x, base);
      } else {
        DelMissing(x, base);
        DelBack(rest, pre, base);
        assert forall d :: d != x ==> (Extra(rest, pre, d) <==> Extra(ds, pre, d));
        assert Extra(rest, pre, x) ==> x !in base;
      }
    }
  }

  lemma {:induction false} InsertedInFront<T>(xs: seq<T>, chain: seq<T>) returns (pre: seq<T>)
    ensures InsertAll(xs, chain) == pre + chain && multiset(pre) == multiset(xs)
    decreases |xs|
  {
    if xs == [] {
      pre := [];
    } else {
      HeadCount(xs);
      var pre' := InsertedInFront(xs[1..], [xs[0]] + chain);
      pre := pre' + [xs[0]];
      assert pre' + ([xs[0]] + chain) == pre + chain;
    }
  }

  /** Deleting the inserted rules, in the order they were inserted, restores the chain. */
  lemma RevertRestores<T(!new)>(xs: seq<T>, chain: seq<T>)
    ensures DelAll(xs, InsertAll(xs, chain)) == chain
  {
    var pre := InsertedInFront(xs, chain);
    DelBack(xs, pre, chain);
  }

  // ---- setup then release ----

  function Filters(rs: seq<Rules>): seq<Filter> {
    if rs == [] then [] else [FilterOf(rs[0])] + Filters(rs[1..])
  }

  function RulesOf(ip: string, maps: seq<PortMapping>): seq<Rules> {
    if maps == [] then []
    else
      var g := GenerateRules(ip, maps[0]);
      if g.Err? then RulesOf(ip, maps[1..]) else [g.value] + RulesOf(ip, maps[1..])
  }

  function AllPorts(maps: seq<PortMapping>): set<Port> {
    if maps == [] then {} else ReleasedPorts(maps[0]) + AllPorts(maps[1..])
  }

  lemma {:induction false} AddAllChains(net: Net, rs: seq<Rules>)
    ensures AddAll(net, rs).dnat == InsertAll(rs, net.dnat)
    ensures AddAll(net, rs).filter == InsertAll(Filters(rs), net.filter)
    decreases |rs|
  {
    if rs == [] {
    } else {
      AddAllChains(Add(net, rs[0]), rs[1..]);
      assert Filters(rs)[1..] == Filters(rs[1..]);
    }
  }

  /** The rules whose delete commands work. */
  function DelRules(ip: string, maps: seq<PortMapping>, dels: seq<Deletes>): seq<Rules>
    requires |dels| == |maps|
  {
    if maps == [] then []
    else
      var g := GenerateRules(ip, maps[0]);
      (if g.Ok? && dels[0].ofNat then [g.value] else []) + DelRules(ip, maps[1..], dels[1..])
  }

  function DelFilters(ip: string, maps: seq<PortMapping>, dels: seq<Deletes>): seq<Filter>
    requires |dels| == |maps|
  {
    if maps == [] then []
    else
      var g := GenerateRules(ip, maps[0]);
      (if g.Ok? && dels[0].ofFilter then [FilterOf(g.value)] else []) + DelFilters(ip, maps[1..], dels[1..])
  }

  lemma DelAllFrom<T>(x: T, ds: seq<T>, del: bool, chain: seq<T>)
    ensures DelAll((if del then [x] else []) + ds, chain) == DelAll(ds, if del then Del(x, chain) else chain)
  {
    if del {
      assert ([x] + ds)[1..] == ds;
    } else {
      assert [] + ds == ds;
    }
  }

  lemma {:induction false} ReleaseAllParts(ip: string, maps: seq<PortMapping>, dels: seq<Deletes>, net: Net)
    requires |dels| == |maps|
    ensures ReleaseAll(ip, maps, dels, net)
            == Net(DelAll(DelRules(ip, maps, dels), net.dnat), DelAll(DelFilters(ip, maps, dels), net.filter),
                   net.ports - AllPorts(maps))
    decreases |maps|
  {
    if maps == [] {
      assert net.ports - {} == net.ports;
    } else {
      var g, d := GenerateRules(ip, maps[0]), dels[0];
      ReleaseAllParts(ip, maps[1..], dels[1..], ReleaseOne(ip, maps[0], d, net));
      assert net.ports - ReleasedPorts(maps[0]) - AllPorts(maps[1..]) == net.ports - AllPorts(maps);
      var rs, fs := DelRules(ip, maps[1..], dels[1..]), DelFilters(ip, maps[1..], dels[1..]);
      if g.Ok? {
        DelAllFrom(g.value, rs, d.ofNat, net.dnat);
        DelAllFrom(FilterOf(g.value), fs, d.ofFilter, net.filter);
      } else {
        assert [] + rs == rs && [] + fs == fs;
      }
    }
  }

  lemma {:induction false} AllWorkParts(ip: string, maps: seq<PortMapping>, dels: seq<Deletes>)
    requires |dels| == |maps| && forall i :: 0 <= i < |dels| ==> dels[i] == Deletes(true, true)
    ensures DelRules(ip, maps, dels) == RulesOf(ip, maps) && DelFilters(ip, maps, dels) == Filters(RulesOf(ip, maps))
    decreases |maps|
  {
    if maps == [] {
    } else {
      AllWorkParts(ip, maps[1..], dels[1..]);
      var g, rs := GenerateRules(ip, maps[0]), RulesOf(ip, maps[1..]);
      if g.Ok? { FiltersCons(g.value, rs); }
    }
  }

  /** `a` and `b` together have the rules of `all`, and likewise their filter rules. */
  ghost predicate Splits(all: seq<Rules>, a: seq<Rules>, b: seq<Rules>) {
    Shares(all, a, b) && Shares(Filters(all), Filters(a), Filters(b))
  }

  lemma FiltersCons(x: Rules, s: seq<Rules>)
    ensures Filters([x] + s) == [FilterOf(x)] + Filters(s)
  {
    assert ([x] + s)[1..] == s;
  }

  ghost predicate Shares<T>(all: seq<T>, a: seq<T>, b: seq<T>) {
    multiset(all) == multiset(a) + multiset(b)
  }

  lemma SharesCons<T>(x: T, all: seq<T>, a: seq<T>, b: seq<T>)
    requires Shares(all, a, b)
    ensures Shares([x] + all, [x] + a, b) && Shares([x] + all, a, [x] + b)
  {
    assert multiset([x] + all) == multiset{x} + multiset(all);
    assert multiset([x] + a) == multiset{x} + multiset(a);
    assert multiset([x] + b) == multiset{x} + multiset(b);
  }

  lemma SplitsCons(x: Rules, all: seq<Rules>, a: seq<Rules>, b: seq<Rules>)
    requires Splits(all, a, b)
    ensures Splits([x] + all, [x] + a, b) && Splits([x] + all, a, [x] + b)
  {
    FiltersCons(x, all);
    FiltersCons(x, a);
    FiltersCons(x, b);
    SharesCons(x, all, a, b);
    SharesCons(FilterOf(x), Filters(all), Filters(a), Filters(b));
  }

  lemma WalkFrom(ip: string, m: PortMapping, ms: seq<PortMapping>, i: Commands, io: seq<Commands>, net: Net)
    requires |io| == |ms| && WalkAll(ip, [m] + ms, [i] + io, net).ok
    ensures var v := Judge(ip, m, i, net);
            && !v.Fail?
            && RulesOf(ip, [m] + ms) == [v.rules] + RulesOf(ip, ms)
            && var w := WalkAll(ip, ms, io, if v.Install? then Add(net, v.rules) else net);
               w.ok && WalkAll(ip, [m] + ms, [i] + io, net)
                       == if v.Install? then w.(installed := [v.rules] + w.installed)
                          else w.(skipped := [v.rules] + w.skipped)
  {
    assert ([m] + ms)[1..] == ms && ([i] + io)[1..] == io;
  }

  lemma {:induction false} WalkSplits(ip: string, maps: seq<PortMapping>, io: seq<Commands>, net: Net)
    requires |io| == |maps| && WalkAll(ip, maps, io, net).ok
    ensures Splits(RulesOf(ip, maps), WalkAll(ip, maps, io, net).installed, WalkAll(ip, maps, io, net).skipped)
    decreases |maps|
  {
    if maps == [] {
    } else {
      var m, ms, i, rest := maps[0], maps[1..], io[0], io[1..];
      assert [m] + ms == maps && [i] + rest == io;
      WalkFrom(ip, m, ms, i, rest, net);
      var v := Judge(ip, m, i, net);
      var net' := if v.Install? then Add(net, v.rules) else net;
      WalkSplits(ip, ms, rest, net');
      var w := WalkAll(ip, ms, rest, net');
      SplitsCons(v.rules, RulesOf(ip, ms), w.installed, w.skipped);
    }
  }

  /** Only rules that were in no chain before are installed. */
  lemma {:induction false} InstalledFresh(ip: string, maps: seq<PortMapping>, io: seq<Commands>, net: Net, r: Rules)
    requires |io| == |maps| && r in WalkAll(ip, maps, io, net).installed
    ensures r !in net.dnat
  {
    var v := Judge(ip, maps[0], io[0], net);
    if v.Skip? {
      InstalledFresh(ip, maps[1..], io[1..], net, r);
    } else if r != v.rules {
      InstalledFresh(ip, maps[1..], io[1..], Add(net, v.rules), r);
      assert r !in Add(net, v.rules).dnat;
      assert forall x :: x in net.dnat ==> x in [v.rules] + net.dnat;
    }
  }

  /** Installing touches no port outside those the mappings name. */
  lemma {:induction false} WalkPorts(ip: string, maps: seq<PortMapping>, io: seq<Commands>, net: Net)
    requires |io| == |maps|
    ensures AddAll(net, WalkAll(ip, maps, io, net).installed).ports - AllPorts(maps) == net.ports - AllPorts(maps)
  {
    if maps == [] {
    } else {
      var v, rest := Judge(ip, maps[0], io[0], net), AllPorts(maps[1..]);
      match v
      case Fail =>
      case Skip(_) =>
        WalkPorts(ip, maps[1..], io[1..], net);
        LessPorts(AddAll(net, WalkAll(ip, maps, io, net).installed).ports, net.ports, rest, ReleasedPorts(maps[0]));
      case Install(r) =>
        var next := Add(net, r);
        WalkPorts(ip, maps[1..], io[1..], next);
        var rs := WalkAll(ip, maps[1..], io[1..], next).installed;
        assert ([r] + rs)[1..] == rs;
        assert PortsOf(r).Keys == ReleasedPorts(maps[0]);
        assert next.ports - ReleasedPorts(maps[0]) == net.ports - ReleasedPorts(maps[0]);
        LessPorts(AddAll(next, rs).ports, next.ports, rest, ReleasedPorts(maps[0]));
        LessPorts(next.ports, net.ports, ReleasedPorts(maps[0]), rest);
    }
  }

  lemma LessPorts(a: map<Port, Target>, b: map<Port, Target>, s: set<Port>, more: set<Port>)
    requires a - s == b - s
    ensures a - (s + more) == b - (s + more) && a - (more + s) == b - (more + s)
  {
    assert a - (s + more) == (a - s) - more && b - (s + more) == (b - s) - more;
    assert s + more == more + s;
  }

  /** The rule is in the chain already, or an earlier mapping has it. */
  ghost predicate Repeats(rs: seq<Rules>, chain: seq<Rules>, i: nat)
    requires i < |rs|
  {
    rs[i] in chain || rs[i] in rs[..i]
  }

  lemma RepeatsShift(h: Rules, rs: seq<Rules>, chain: seq<Rules>, chain': seq<Rules>, i: nat)
    requires i < |rs| && (chain' == [h] + chain || (chain' == chain && h in chain))
    ensures Repeats(rs, chain', i) <==> Repeats([h] + rs, chain, i + 1)
  {
    assert ([h] + rs)[..i + 1] == [h] + rs[..i];
  }

  ghost predicate RepeatAt(rs: seq<Rules>, chain: seq<Rules>, i: nat, r: Rules) {
    i < |rs| && rs[i] == r && Repeats(rs, chain, i)
  }

  /** The mappings found in place are those whose rule is in the chain at the start or repeats an earlier one. */
  lemma {:induction false} SkippedIff(ip: string, maps: seq<PortMapping>, io: seq<Commands>, net: Net, r: Rules)
    requires |io| == |maps| && WalkAll(ip, maps, io, net).ok
    ensures r in WalkAll(ip, maps, io, net).skipped
            <==> exists i: nat :: RepeatAt(RulesOf(ip, maps), net.dnat, i, r)
    decreases |maps|
  {
    if maps == [] {
    } else {
      var m, ms, i, rest := maps[0], maps[1..], io[0], io[1..];
      assert [m] + ms == maps && [i] + rest == io;
      WalkFrom(ip, m, ms, i, rest, net);
      var v := Judge(ip, m, i, net);
      var net' := if v.Install? then Add(net, v.rules) else net;
      SkippedIff(ip, ms, rest, net', r);
      RepeatFrom(v.rules, RulesOf(ip, ms), net.dnat, net'.dnat, r);
    }
  }

  lemma RepeatFrom(h: Rules, rs: seq<Rules>, chain: seq<Rules>, chain': seq<Rules>, r: Rules)
    requires if h in chain then chain' == chain else chain' == [h] + chain
    ensures (exists i: nat :: RepeatAt([h] + rs, chain, i, r))
            <==> (h in chain && r == h) || exists i: nat :: RepeatAt(rs, chain', i, r)
  {
    forall i: nat ensures RepeatAt(rs, chain', i, r) <==> RepeatAt([h] + rs, chain, i + 1, r) {
      if i < |rs| { RepeatsShift(h, rs, chain, chain', i); }
    }
    assert RepeatAt([h] + rs, chain, 0, r) <==> h in chain && r == h;
    forall i: nat | RepeatAt([h] + rs, chain, i, r)
      ensures (h in chain && r == h) || exists k: nat :: RepeatAt(rs, chain', k, r)
    {
      if i > 0 { assert RepeatAt(rs, chain', i - 1, r); }
    }
  }

  /**
   After a successful setup, a release of the same mappings whose commands all work restores
   the ports exactly when none
   of their ports was in use before, the nat chain exactly when none of their rules was in it
   before, and the filter chain exactly when it holds the filter rule of no mapping that is in
   the nat chain already or repeats an earlier one.
   */
  lemma ReleaseRestores(ip: string, maps: seq<PortMapping>, io: seq<Commands>, net: Net)
    requires |io| == |maps| && WalkAll(ip, maps, io, net).ok
    ensures var w := WalkAll(ip, maps, io, net);
            var after := ReleaseAll(ip, maps, AllWork(|maps|), AddAll(net, w.installed));
            && (after.ports == net.ports <==> AllPorts(maps) !! net.ports.Keys)
            && (after.dnat == net.dnat <==> forall r :: r in RulesOf(ip, maps) ==> r !in net.dnat)
            && (after.filter == net.filter <==> RepeatsUnfiltered(RulesOf(ip, maps), net.dnat, net.filter))
  {
    var w := WalkAll(ip, maps, io, net);
    ReleaseAllParts(ip, maps, AllWork(|maps|), AddAll(net, w.installed));
    AllWorkParts(ip, maps, AllWork(|maps|));
    WalkPorts(ip, maps, io, net);
    AddAllChains(net, w.installed);
    DnatRestored(ip, maps, io, net);
    FilterBack(ip, maps, io, net);
    assert net.ports - AllPorts(maps) == net.ports <==> AllPorts(maps) !! net.ports.Keys;
  }

  ghost predicate SkipsRepeats(rs: seq<Rules>, dnat: seq<Rules>, skipped: seq<Rules>) {
    forall r :: r in skipped <==> exists i: nat :: RepeatAt(rs, dnat, i, r)
  }

  /** The filter chain holds no filter rule of a mapping found in place. */
  ghost predicate RepeatsUnfiltered(rs: seq<Rules>, dnat: seq<Rules>, filter: seq<Filter>) {
    forall i: nat :: i < |rs| && Repeats(rs, dnat, i) ==> FilterOf(rs[i]) !in filter
  }

  ghost predicate Unfiltered(skipped: seq<Rules>, filter: seq<Filter>) {
    forall r :: r in skipped ==> FilterOf(r) !in filter
  }

  lemma FilterBack(ip: string, maps: seq<PortMapping>, io: seq<Commands>, net: Net)
    requires |io| == |maps| && WalkAll(ip, maps, io, net).ok
    ensures var rs := RulesOf(ip, maps);
            DelAll(Filters(rs), InsertAll(Filters(WalkAll(ip, maps, io, net).installed), net.filter)) == net.filter
            <==> RepeatsUnfiltered(rs, net.dnat, net.filter)
  {
    var w, rs := WalkAll(ip, maps, io, net), RulesOf(ip, maps);
    WalkSplits(ip, maps, io, net);
    FilterRestored(rs, w.installed, w.skipped, net.filter);
    WalkSkips(ip, maps, io, net);
    SkippedFilters(rs, net.dnat, w.skipped, net.filter);
  }

  lemma WalkSkips(ip: string, maps: seq<PortMapping>, io: seq<Commands>, net: Net)
    requires |io| == |maps| && WalkAll(ip, maps, io, net).ok
    ensures SkipsRepeats(RulesOf(ip, maps), net.dnat, WalkAll(ip, maps, io, net).skipped)
  {
    forall r ensures r in WalkAll(ip, maps, io, net).skipped
                     <==> exists i: nat :: RepeatAt(RulesOf(ip, maps), net.dnat, i, r) {
      SkippedIff(ip, maps, io, net, r);
    }
  }

  lemma SkippedFilters(rs: seq<Rules>, dnat: seq<Rules>, skipped: seq<Rules>, filter: seq<Filter>)
    requires SkipsRepeats(rs, dnat, skipped)
    ensures Unfiltered(skipped, filter) <==> RepeatsUnfiltered(rs, dnat, filter)
  {
    forall i: nat | i < |rs| && Repeats(rs, dnat, i) ensures rs[i] in skipped {
      assert RepeatAt(rs, dnat, i, rs[i]);
    }
    forall r | r in skipped ensures exists i: nat :: i < |rs| && rs[i] == r && Repeats(rs, dnat, i) {
      var i: nat :| RepeatAt(rs, dnat, i, r);
    }
  }

  /** A release takes away a rule that was there before the setup. */
  lemma ReleaseTakesTheRest(ip: string)
    ensures var maps := [PortMapping("tcp", PortRange(80, 80), PortRange(80, 80))];
            var r := Rules(ip, false, PortRange(80, 80), PortRange(80, 80));
            var net := Net([r], [FilterOf(r)], PortsOf(r));
            var w := WalkAll(ip, maps, [Commands(Fine, Fine)], net);
            w.ok && ReleaseAll(ip, maps, AllWork(1), AddAll(net, w.installed)) == Net([], [], map[])
  {
    var maps, io := [PortMapping("tcp", PortRange(80, 80), PortRange(80, 80))], [Commands(Fine, Fine)];
    var r := Rules(ip, false, PortRange(80, 80), PortRange(80, 80));
    var net := Net([r], [FilterOf(r)], PortsOf(r));
    assert Judge(ip, maps[0], io[0], net) == Skip(r) by { assert net.dnat[0] == r; }
    var w, rest := WalkAll(ip, maps, io, net), WalkAll(ip, maps[1..], io[1..], net);
    assert rest == Walk([], [], true);
    assert w == rest.(skipped := [r] + rest.skipped);
    assert w.ok && w.installed == [];
    assert PortsOf(r) - ReleasedPorts(maps[0]) == map[] by { assert PortsOf(r).Keys == ReleasedPorts(maps[0]); }
    assert ReleaseOne(ip, maps[0], AllWork(1)[0], net) == Net([], [], map[]);
  }

  lemma DnatRestored(ip: string, maps: seq<PortMapping>, io: seq<Commands>, net: Net)
    requires |io| == |maps| && WalkAll(ip, maps, io, net).ok
    ensures DelAll(RulesOf(ip, maps), InsertAll(WalkAll(ip, maps, io, net).installed, net.dnat)) == net.dnat
            <==> forall r :: r in RulesOf(ip, maps) ==> r !in net.dnat
  {
    var w, all := WalkAll(ip, maps, io, net), RulesOf(ip, maps);
    WalkSplits(ip, maps, io, net);
    var pre := InsertedInFront(w.installed, net.dnat);
    DelBack(all, pre, net.dnat);
    forall r | r in net.dnat ensures r in all <==> Extra(all, pre, r) {
      InMultiset(all, r);
      InMultiset(w.installed, r);
      if r in w.installed { InstalledFresh(ip, maps, io, net, r); }
    }
  }

  lemma FilterRestored(all: seq<Rules>, installed: seq<Rules>, skipped: seq<Rules>, chain: seq<Filter>)
    requires Splits(all, installed, skipped)
    ensures DelAll(Filters(all), InsertAll(Filters(installed), chain)) == chain
            <==> Unfiltered(skipped, chain)
  {
    var pre := InsertedInFront(Filters(installed), chain);
    DelBack(Filters(all), pre, chain);
    forall f ensures Extra(Filters(all), pre, f) <==> f in Filters(skipped) {
      InMultiset(Filters(skipped), f);
    }
    forall f ensures f in Filters(skipped) <==> exists r :: r in skipped && FilterOf(r) == f {
      FiltersOf(skipped, f);
    }
  }

  lemma {:induction false} FiltersOf(rs: seq<Rules>, f: Filter)
    ensures f in Filters(rs) <==> exists r :: r in rs && FilterOf(r) == f
  {
    if rs == [] {
    } else {
      FiltersOf(rs[1..], f);
      assert rs == [rs[0]] + rs[1..];
      if FilterOf(rs[0]) == f { assert rs[0] in rs; }
    }
  }

  // ---- a setup that fails ----

  lemma {:induction false} PortsGrow(net: Net, rs: seq<Rules>)
    ensures net.ports.Keys <= AddAll(net, rs).ports.Keys
    decreases |rs|
  {
    if rs == [] {
    } else {
      PortsGrow(Add(net, rs[0]), rs[1..]);
    }
  }

  lemma {:induction false} InstalledPorts(ip: string, maps: seq<PortMapping>, io: seq<Commands>, net: Net)
    requires |io| == |maps|
    ensures var rs := WalkAll(ip, maps, io, net).installed;
            AddAll(net, rs).ports == net.ports <==> rs == []
    decreases |maps|
  {
    if maps == [] {
    } else {
      match Judge(ip, maps[0], io[0], net)
      case Fail =>
      case Skip(_) => InstalledPorts(ip, maps[1..], io[1..], net);
      case Install(r) =>
        var rs := WalkAll(ip, maps[1..], io[1..], Add(net, r)).installed;
        assert ([r] + rs)[1..] == rs;
        PortsGrow(Add(net, r), rs);
        assert Port(r.udp, r.from.begin) in HostPorts(r);
    }
  }

  /** On its own, mapping `i` would fail. */
  ghost predicate FailsAlone(ip: string, maps: seq<PortMapping>, io: seq<Commands>, net: Net, i: nat) {
    i < |maps| && i < |io| && Judge(ip, maps[i], io[i], net).Fail?
  }

  /** On its own, mapping `i` would be installed. */
  ghost predicate InstallsAlone(ip: string, maps: seq<PortMapping>, io: seq<Commands>, net: Net, i: nat) {
    i < |maps| && i < |io| && Judge(ip, maps[i], io[i], net).Install?
  }

  /** Each mapping that would be installed on its own comes behind one that would fail. */
  ghost predicate Blocked(ip: string, maps: seq<PortMapping>, io: seq<Commands>, net: Net) {
    forall i: nat :: InstallsAlone(ip, maps, io, net, i) ==> exists j: nat :: j < i && FailsAlone(ip, maps, io, net, j)
  }

  lemma BlockedFrom(ip: string, maps: seq<PortMapping>, io: seq<Commands>, net: Net)
    requires |io| == |maps| > 0 && Judge(ip, maps[0], io[0], net).Skip?
    ensures Blocked(ip, maps, io, net) <==> Blocked(ip, maps[1..], io[1..], net)
  {
    var ms, rest := maps[1..], io[1..];
    assert forall i: nat :: FailsAlone(ip, ms, rest, net, i) <==> FailsAlone(ip, maps, io, net, i + 1);
    assert forall i: nat :: InstallsAlone(ip, ms, rest, net, i) <==> InstallsAlone(ip, maps, io, net, i + 1);
    if Blocked(ip, maps, io, net) {
      forall i: nat | InstallsAlone(ip, ms, rest, net, i) ensures exists j: nat :: j < i && FailsAlone(ip, ms, rest, net, j) {
        assert InstallsAlone(ip, maps, io, net, i + 1);
        var j: nat :| j < i + 1 && FailsAlone(ip, maps, io, net, j);
        assert FailsAlone(ip, ms, rest, net, j - 1);
      }
    }
    if Blocked(ip, ms, rest, net) {
      forall i: nat | InstallsAlone(ip, maps, io, net, i) ensures exists j: nat :: j < i && FailsAlone(ip, maps, io, net, j) {
        assert InstallsAlone(ip, ms, rest, net, i - 1);
        var j: nat :| j < i - 1 && FailsAlone(ip, ms, rest, net, j);
        assert FailsAlone(ip, maps, io, net, j + 1);
      }
    }
  }

  lemma {:induction false} NoneInstalledIff(ip: string, maps: seq<PortMapping>, io: seq<Commands>, net: Net)
    requires |io| == |maps|
    ensures WalkAll(ip, maps, io, net).installed == [] <==> Blocked(ip, maps, io, net)
    decreases |maps|
  {
    if maps == [] {
    } else {
      match Judge(ip, maps[0], io[0], net)
      case Fail => assert FailsAlone(ip, maps, io, net, 0);
      case Skip(_) =>
        NoneInstalledIff(ip, maps[1..], io[1..], net);
        BlockedFrom(ip, maps, io, net);
      case Install(_) => assert InstallsAlone(ip, maps, io, net, 0);
    }
  }

  /**
   The ports of the mappings installed before a failing one stay taken: none do exactly when,
   judged against the state at the start, each mapping that would be installed comes behind one
   that would fail.
   */
  lemma PortsLeak(ip: string, maps: seq<PortMapping>, io: seq<Commands>, net: Net)
    requires |io| == |maps| && !WalkAll(ip, maps, io, net).ok
    ensures AddAll(net, WalkAll(ip, maps, io, net).installed).ports == net.ports <==> Blocked(ip, maps, io, net)
  {
    InstalledPorts(ip, maps, io, net);
    NoneInstalledIff(ip, maps, io, net);
  }

  /** Two mappings of one host port: the second fails, and the port of the first stays taken. */
  lemma SecondFails(ip: string)
    ensures var maps := [PortMapping("tcp", PortRange(80, 80), PortRange(80, 80)),
                         PortMapping("tcp", PortRange(81, 81), PortRange(80, 80))];
            var net := Net([], [], map[]);
            var w := WalkAll(ip, maps, [Commands(Fine, Fine), Commands(Fine, Fine)], net);
            !w.ok && AddAll(net, w.installed).ports == map[Port(false, 80) := Target(ip, 80)]
  {
    var maps := [PortMapping("tcp", PortRange(80, 80), PortRange(80, 80)),
                 PortMapping("tcp", PortRange(81, 81), PortRange(80, 80))];
    var io, net := [Commands(Fine, Fine), Commands(Fine, Fine)], Net([], [], map[]);
    var r := Rules(ip, false, PortRange(80, 80), PortRange(80, 80));
    assert Judge(ip, maps[0], io[0], net) == Install(r);
    var next := Add(net, r);
    assert next.dnat[0] == r && Hits(r.from, PortRange(80, 80));
    assert Judge(ip, maps[1], io[1], next) == Fail;
    assert maps[1..][0] == maps[1] && io[1..][0] == io[1];
    assert WalkAll(ip, maps, io, net).installed == [r];
    assert AddAll(net, [r]) == next;
    assert PortsOf(r) == map[Port(false, 80) := Target(ip, 80)];
  }
}
