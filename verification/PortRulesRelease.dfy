/** What a release restores when some of its delete commands fail. */
module PortRulesRelease {
  import opened PortText
  import opened PortRules
  import opened PortRulesTheorems

  lemma {:induction false} DelAllCount<T>(ds: seq<T>, chain: seq<T>)
    ensures multiset(DelAll(ds, chain)) == multiset(chain) - multiset(ds)
    decreases |ds|
  {
    if ds == [] {
    } else {
      HeadCount(ds);
      DelCount(ds[0], chain);
      DelAllCount(ds[1..], Del(ds[0], chain));
    }
  }

  /** Every rule put in front is deleted, and no rule of the base is deleted beside them. */
  ghost predicate Covers<T(!new)>(ds: seq<T>, pre: seq<T>, base: seq<T>) {
    multiset(pre) <= multiset(ds) && forall d :: Extra(ds, pre, d) ==> d !in base
  }

  /** Whatever is deleted, the base comes back exactly when the deletions cover what was put in front of it. */
  lemma DelBackIff<T(!new)>(ds: seq<T>, pre: seq<T>, base: seq<T>)
    ensures DelAll(ds, pre + base) == base <==> Covers(ds, pre, base)
  {
    if multiset(pre) <= multiset(ds) {
      DelBack(ds, pre, base);
    } else {
      DelAllCount(ds, pre + base);
      assert multiset(pre + base) == multiset(pre) + multiset(base);
      var d :| multiset(pre)[d] > multiset(ds)[d];
      assert multiset(DelAll(ds, pre + base))[d] > multiset(base)[d];
    }
  }

  // ---- what a setup installs ----

  /** The rules that are neither in the chain nor repeat an earlier one. */
  function Fresh(rs: seq<Rules>, chain: seq<Rules>): seq<Rules> {
    if rs == [] then []
    else if rs[0] in chain then Fresh(rs[1..], chain)
    else [rs[0]] + Fresh(rs[1..], [rs[0]] + chain)
  }

  lemma {:induction false} InstalledIsFresh(ip: string, maps: seq<PortMapping>, io: seq<Commands>, net: Net)
    requires |io| == |maps| && WalkAll(ip, maps, io, net).ok
    ensures WalkAll(ip, maps, io, net).installed == Fresh(RulesOf(ip, maps), net.dnat)
    decreases |maps|
  {
    if maps == [] {
    } else {
      var m, ms, i, rest := maps[0], maps[1..], io[0], io[1..];
      assert [m] + ms == maps && [i] + rest == io;
      WalkFrom(ip, m, ms, i, rest, net);
      var v := Judge(ip, m, i, net);
      InstalledIsFresh(ip, ms, rest, if v.Install? then Add(net, v.rules) else net);
      assert ([v.rules] + RulesOf(ip, ms))[1..] == RulesOf(ip, ms);
    }
  }

  lemma {:induction false} FreshOnce(rs: seq<Rules>, chain: seq<Rules>, r: Rules)
    ensures multiset(Fresh(rs, chain))[r] == if r in rs && r !in chain then 1 else 0
    decreases |rs|
  {
    if rs == [] {
    } else {
      assert rs == [rs[0]] + rs[1..];
      if rs[0] in chain {
        FreshOnce(rs[1..], chain, r);
      } else {
        var rest := Fresh(rs[1..], [rs[0]] + chain);
        FreshOnce(rs[1..], [rs[0]] + chain, r);
        assert multiset([rs[0]] + rest) == multiset{rs[0]} + multiset(rest);
      }
    }
  }

  // ---- releasing ----

  /** Each rule is deleted at least once if it was not in the chain before, and not at all if it was. */
  ghost predicate DeletesFit(rs: seq<Rules>, deleted: seq<Rules>, chain: seq<Rules>) {
    forall r :: r in rs ==> (r in deleted <==> r !in chain)
  }

  lemma {:induction false} DeletedOnly(ip: string, maps: seq<PortMapping>, dels: seq<Deletes>, r: Rules)
    requires |dels| == |maps| && r in DelRules(ip, maps, dels)
    ensures r in RulesOf(ip, maps)
    decreases |maps|
  {
    if GenerateRules(ip, maps[0]) != Ok(r) {
      DeletedOnly(ip, maps[1..], dels[1..], r);
    }
  }

  lemma DeletesCover(rs: seq<Rules>, deleted: seq<Rules>, chain: seq<Rules>, pre: seq<Rules>)
    requires multiset(pre) == multiset(Fresh(rs, chain)) && forall r :: r in deleted ==> r in rs
    ensures Covers(deleted, pre, chain) <==> DeletesFit(rs, deleted, chain)
  {
    forall r ensures multiset(pre)[r] == (if r in rs && r !in chain then 1 else 0) && (r in deleted <==> multiset(deleted)[r] > 0) {
      FreshOnce(rs, chain, r);
      InMultiset(deleted, r);
    }
    if DeletesFit(rs, deleted, chain) {
      forall d | Extra(deleted, pre, d) ensures d !in chain { assert d in deleted; }
    }
    if Covers(deleted, pre, chain) {
      forall r | r in rs ensures r in deleted <==> r !in chain {
        if r in chain { assert Extra(deleted, pre, r) <==> r in deleted; }
      }
    }
  }

  /**
   After a successful setup and a release some of whose commands may fail: the ports are
   restored exactly when none was in use before; the nat chain, exactly when each rule that was
   not in it is deleted and none that was in it; the filter chain, exactly when the deletions
   that work cover the filter rules of the fresh mappings.
   */
  lemma ReleaseRestoresIff(ip: string, maps: seq<PortMapping>, io: seq<Commands>, dels: seq<Deletes>, net: Net)
    requires |io| == |maps| == |dels| && WalkAll(ip, maps, io, net).ok
    ensures var after := ReleaseAll(ip, maps, dels, AddAll(net, WalkAll(ip, maps, io, net).installed));
            var rs := RulesOf(ip, maps);
            && (after.ports == net.ports <==> AllPorts(maps) !! net.ports.Keys)
            && (after.dnat == net.dnat <==> DeletesFit(rs, DelRules(ip, maps, dels), net.dnat))
            && (after.filter == net.filter
                <==> Covers(DelFilters(ip, maps, dels), Filters(Fresh(rs, net.dnat)), net.filter))
  {
    var w := WalkAll(ip, maps, io, net);
    ReleaseAllParts(ip, maps, dels, AddAll(net, w.installed));
    WalkPorts(ip, maps, io, net);
    AddAllChains(net, w.installed);
    InstalledIsFresh(ip, maps, io, net);
    NatBack(ip, maps, dels, net.dnat);
    FilterBackIff(DelFilters(ip, maps, dels), Filters(Fresh(RulesOf(ip, maps), net.dnat)), net.filter);
    assert net.ports - AllPorts(maps) == net.ports <==> AllPorts(maps) !! net.ports.Keys;
  }

  lemma NatBack(ip: string, maps: seq<PortMapping>, dels: seq<Deletes>, chain: seq<Rules>)
    requires |dels| == |maps|
    ensures var rs, deleted := RulesOf(ip, maps), DelRules(ip, maps, dels);
            DelAll(deleted, InsertAll(Fresh(rs, chain), chain)) == chain <==> DeletesFit(rs, deleted, chain)
  {
    var rs, deleted := RulesOf(ip, maps), DelRules(ip, maps, dels);
    var pre := InsertedInFront(Fresh(rs, chain), chain);
    forall r | r in deleted ensures r in rs { DeletedOnly(ip, maps, dels, r); }
    DeletesCover(rs, deleted, chain, pre);
    DelBackIff(deleted, pre, chain);
  }

  lemma FilterBackIff(deleted: seq<Filter>, added: seq<Filter>, chain: seq<Filter>)
    ensures DelAll(deleted, InsertAll(added, chain)) == chain <==> Covers(deleted, added, chain)
  {
    var pre := InsertedInFront(added, chain);
    DelBackIff(deleted, pre, chain);
    assert forall d :: Extra(deleted, pre, d) <==> Extra(deleted, added, d);
  }
}
