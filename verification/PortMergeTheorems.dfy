/**
 What merging promises: the host-to-container map is kept, undetermined mappings get ports
 nothing else uses, output ranges are disjoint, and no two runs could still be joined.
 */
module PortMergeTheorems {
  import opened Basics
  import opened PortText
  import opened PortMerge

  // ---- vocabulary ----

  function Ranges(pms: seq<Mapping>): seq<Mapping> {
    if pms == [] then []
    else if pms[0].IsRange() then [pms[0]] + Ranges(pms[1..])
    else Ranges(pms[1..])
  }

  function Singles(pms: seq<Mapping>): seq<Mapping> {
    if pms == [] then []
    else if !pms[0].IsRange() && !pms[0].NotDetermined() then [pms[0]] + Singles(pms[1..])
    else Singles(pms[1..])
  }

  function Undetermined(pms: seq<Mapping>): seq<Mapping> {
    if pms == [] then []
    else if pms[0].NotDetermined() then [pms[0]] + Undetermined(pms[1..])
    else Undetermined(pms[1..])
  }

  function Determined(pms: seq<Mapping>): seq<Mapping> {
    if pms == [] then []
    else if pms[0].NotDetermined() then Determined(pms[1..])
    else [pms[0]] + Determined(pms[1..])
  }

  /** The mapping sends host port `h` to container port `c`. */
  predicate Maps(m: Mapping, h: int, c: int) {
    m.host.Has(h) && c == m.container.start + (h - m.host.start)
  }

  ghost predicate MapsAny(ms: seq<Mapping>, h: int, c: int) {
    exists m :: m in ms && Maps(m, h, c)
  }

  ghost predicate DisjointHosts(ms: seq<Mapping>) {
    forall i, j :: 0 <= i < j < |ms| ==> Span(ms[i].host) !! Span(ms[j].host)
  }

  function Hosts(ms: seq<Mapping>): set<int> {
    if ms == [] then {} else Span(ms[0].host) + Hosts(ms[1..])
  }

  ghost predicate AllValid(pms: seq<Mapping>) {
    forall m :: m in pms ==> m.Valid()
  }

  lemma TailValid(pms: seq<Mapping>)
    requires AllValid(pms) && pms != []
    ensures AllValid(pms[1..]) && pms[0].Valid()
  {
    assert pms[0] in pms && forall m :: m in pms[1..] ==> m in pms;
  }

  lemma {:induction false} HostsHas(ms: seq<Mapping>, p: int)
    ensures p in Hosts(ms) <==> exists i :: 0 <= i < |ms| && p in Span(ms[i].host)
  {
    if ms == [] {
    } else {
      var rest := ms[1..];
      HostsHas(rest, p);
      assert forall i :: 0 <= i < |rest| ==> rest[i] == ms[i + 1];
      assert p in Hosts(rest) ==> exists i :: 0 <= i < |ms| && p in Span(ms[i].host);
      assert forall i :: 0 < i < |ms| ==> ms[i] == rest[i - 1];
    }
  }

  lemma DisjointCons(m: Mapping, ms: seq<Mapping>)
    ensures DisjointHosts([m] + ms) <==> DisjointHosts(ms) && Span(m.host) !! Hosts(ms)
  {
    var all := [m] + ms;
    assert forall i :: 0 <= i < |ms| ==> all[i + 1] == ms[i];
    forall p | p in Span(m.host) ensures p in Hosts(ms) <==> exists i :: 0 <= i < |ms| && p in Span(ms[i].host) {
      HostsHas(ms, p);
    }
    if DisjointHosts(all) {
      forall i, j | 0 <= i < j < |ms| ensures Span(ms[i].host) !! Span(ms[j].host) {
        assert Span(all[i + 1].host) !! Span(all[j + 1].host);
      }
      forall p | p in Span(m.host) ensures p !in Hosts(ms) {
        forall i | 0 <= i < |ms| ensures p !in Span(ms[i].host) {
          assert Span(all[0].host) !! Span(all[i + 1].host);
        }
      }
    }
    if DisjointHosts(ms) && Span(m.host) !! Hosts(ms) {
      forall i, j | 0 <= i < j < |all| ensures Span(all[i].host) !! Span(all[j].host) {
        assert all[j] == ms[j - 1];
        if i > 0 {
          assert all[i] == ms[i - 1];
        } else {
          forall p | p in Span(m.host) ensures p !in Span(ms[j - 1].host) { HostsHas(ms, p); }
        }
      }
    }
  }

  function Starts(ms: seq<Mapping>): (r: seq<int>)
    ensures |r| == |ms| && forall i :: 0 <= i < |ms| ==> r[i] == ms[i].host.start
  {
    if ms == [] then [] else [ms[0].host.start] + Starts(ms[1..])
  }

  function IndexByHost(ms: seq<Mapping>, acc: map<int, Mapping>): map<int, Mapping> {
    if ms == [] then acc else IndexByHost(ms[1..], acc[ms[0].host.start := ms[0]])
  }

  // ---- the first loop ----

  function After(st: Plan, pms: seq<Mapping>): Plan {
    Plan(st.occupy + Hosts(Determined(pms)), st.ranges + Ranges(pms), IndexByHost(Singles(pms), st.singles),
         st.remains + Undetermined(pms), st.order + Starts(Singles(pms)))
  }

  lemma Shift<T>(a: seq<T>, x: T, b: seq<T>)
    ensures a + [x] + b == a + ([x] + b)
  {
  }

  lemma AfterDetermined(m: Mapping, rest: seq<Mapping>, occupy: set<int>)
    requires !m.NotDetermined()
    ensures occupy + Span(m.host) + Hosts(Determined(rest)) == occupy + Hosts(Determined([m] + rest))
  {
    assert ([m] + rest)[1..] == rest;
    var ds := Determined(rest);
    assert ([m] + ds)[1..] == ds;
  }

  lemma AfterSingle(m: Mapping, ss: seq<Mapping>, st: Plan)
    ensures IndexByHost([m] + ss, st.singles) == IndexByHost(ss, st.singles[m.host.start := m])
    ensures st.order + [m.host.start] + Starts(ss) == st.order + Starts([m] + ss)
  {
    assert ([m] + ss)[1..] == ss;
    Shift(st.order, m.host.start, Starts(ss));
  }

  lemma AfterCons(m: Mapping, rest: seq<Mapping>, st: Plan)
    requires ClassifyOne(m, st).Some?
    ensures After(ClassifyOne(m, st).value, rest) == After(st, [m] + rest)
  {
    assert ([m] + rest)[1..] == rest;
    if m.NotDetermined() {
      Shift(st.remains, m, Undetermined(rest));
    } else {
      AfterDetermined(m, rest, st.occupy);
      if m.IsRange() {
        Shift(st.ranges, m, Ranges(rest));
      } else {
        AfterSingle(m, Singles(rest), st);
      }
    }
  }

  /** The first loop succeeds exactly when no two determined mappings share a host port. */
  lemma {:induction false} ClassifyMeaning(pms: seq<Mapping>, st: Plan)
    requires AllValid(pms)
    ensures Classify(pms, st).Some? <==> DisjointHosts(Determined(pms)) && Hosts(Determined(pms)) !! st.occupy
    ensures Classify(pms, st).Some? ==> Classify(pms, st).value == After(st, pms)
  {
    if pms == [] {
    } else {
      TailValid(pms);
      var m, rest := pms[0], pms[1..];
      var next := ClassifyOne(m, st);
      if !m.NotDetermined() {
        DisjointCons(m, Determined(rest));
        assert Determined(pms) == [m] + Determined(rest);
        assert Hosts(Determined(pms)) == Span(m.host) + Hosts(Determined(rest));
      }
      if next.Some? {
        ClassifyMeaning(rest, next.value);
        AfterCons(m, rest, st);
        assert [m] + rest == pms;
      }
    }
  }

  // ---- the second loop ----

  /** The ports that the undetermined mappings get. */
  function Pick(rem: seq<Mapping>, occupy: set<int>): (r: Option<seq<nat>>)
    ensures r.Some? ==> |r.value| == |rem|
  {
    if rem == [] then Some([])
    else
      var p := FirstFree(rem[0].host, occupy);
      if p.None? then None
      else
        var rest := Pick(rem[1..], occupy + {p.value});
        if rest.None? then None else Some([p.value] + rest.value)
  }

  function Settle(rem: seq<Mapping>, picks: seq<nat>): (r: seq<Mapping>)
    requires |picks| == |rem|
    ensures |r| == |rem| && forall i :: 0 <= i < |rem| ==> r[i] == Settled(rem[i], picks[i])
  {
    if rem == [] then [] else [Settled(rem[0], picks[0])] + Settle(rem[1..], picks[1..])
  }

  lemma {:induction false} AllocateMeaning(rem: seq<Mapping>, occupy: set<int>, singles: map<int, Mapping>, order: seq<int>)
    ensures Allocate(rem, occupy, singles, order).Some? <==> Pick(rem, occupy).Some?
    ensures Pick(rem, occupy).Some? ==>
              var settled := Settle(rem, Pick(rem, occupy).value);
              Allocate(rem, occupy, singles, order).value == (IndexByHost(settled, singles), order + Starts(settled))
  {
    if rem != [] {
      var p := FirstFree(rem[0].host, occupy);
      if p.Some? {
        AllocateMeaning(rem[1..], occupy + {p.value}, singles[p.value := Settled(rem[0], p.value)], order + [p.value]);
        var rest := Pick(rem[1..], occupy + {p.value});
        if rest.Some? {
          var picks := [p.value] + rest.value;
          assert picks[1..] == rest.value;
          var settled := Settle(rem[1..], rest.value);
          assert Settle(rem, picks) == [Settled(rem[0], p.value)] + settled;
          assert ([Settled(rem[0], p.value)] + settled)[1..] == settled;
          Shift(order, p.value as int, Starts(settled));
        }
      }
    } else {
      assert order + [] == order;
    }
  }

  /**
   First fit, said of the ports alone: each lies in its mapping's range, is used by nothing
   before it, and everything below it in the range is used.
   */
  ghost predicate FirstFit(rem: seq<Mapping>, occupy: set<int>, picks: seq<nat>) {
    && |picks| == |rem|
    && forall i {:trigger picks[i]} :: 0 <= i < |rem| ==> FitsAt(rem[i].host, occupy, picks[..i], picks[i])
  }

  ghost predicate FitsAt(r: Range, occupy: set<int>, before: seq<nat>, p: nat) {
    && r.Has(p) && p !in occupy && p !in before
    && forall q: nat :: r.start <= q < p ==> q in occupy || q in before
  }

  /** After the ports `picks` the next mapping finds its whole range used. */
  ghost predicate Blocked(rem: seq<Mapping>, occupy: set<int>, picks: seq<nat>) {
    && |picks| < |rem|
    && FirstFit(rem[..|picks|], occupy, picks)
    && forall q: nat :: rem[|picks|].host.Has(q) ==> q in occupy || q in picks
  }

  lemma FitsCons(r: Range, occupy: set<int>, p: nat, before: seq<nat>, q: nat)
    ensures FitsAt(r, occupy + {p as int}, before, q) <==> FitsAt(r, occupy, [p] + before, q)
  {
  }

  lemma FirstFitCons(rem: seq<Mapping>, occupy: set<int>, p: nat, picks: seq<nat>)
    requires rem != [] && |picks| == |rem| - 1
    ensures FirstFit(rem, occupy, [p] + picks) <==>
            FitsAt(rem[0].host, occupy, [], p) && FirstFit(rem[1..], occupy + {p as int}, picks)
  {
    var all := [p] + picks;
    assert all[..0] == [];
    forall i | 0 <= i < |picks|
      ensures FitsAt(rem[1..][i].host, occupy + {p as int}, picks[..i], picks[i])
              <==> FitsAt(rem[i + 1].host, occupy, all[..i + 1], all[i + 1])
    {
      assert all[..i + 1] == [p] + picks[..i];
      FitsCons(rem[i + 1].host, occupy, p, picks[..i], picks[i]);
    }
    if FirstFit(rem, occupy, all) {
      assert FitsAt(rem[0].host, occupy, all[..0], all[0]);
      forall i | 0 <= i < |picks| ensures FitsAt(rem[1..][i].host, occupy + {p as int}, picks[..i], picks[i]) {
        assert FitsAt(rem[i + 1].host, occupy, all[..i + 1], all[i + 1]);
      }
    }
    if FitsAt(rem[0].host, occupy, [], p) && FirstFit(rem[1..], occupy + {p as int}, picks) {
      forall i | 0 <= i < |rem| ensures FitsAt(rem[i].host, occupy, all[..i], all[i]) {
        if i > 0 {
          assert all[i] == picks[i - 1];
          assert FitsAt(rem[1..][i - 1].host, occupy + {p as int}, picks[..i - 1], picks[i - 1]);
        }
      }
    }
  }

  lemma FirstFreeFits(r: Range, occupy: set<int>, p: nat)
    ensures FirstFree(r, occupy) == Some(p) <==> FitsAt(r, occupy, [], p)
  {
    var f := FirstFree(r, occupy);
    if FitsAt(r, occupy, [], p) {
      assert p in Span(r);
    }
  }

  /** The ports handed out are the first fit, which is unique. */
  lemma {:induction false} PickIsFirstFit(rem: seq<Mapping>, occupy: set<int>, picks: seq<nat>)
    ensures Pick(rem, occupy) == Some(picks) <==> FirstFit(rem, occupy, picks)
  {
    if rem == [] {
    } else if picks == [] {
      assert !FirstFit(rem, occupy, picks);
    } else {
      var p, rest := picks[0], picks[1..];
      assert picks == [p] + rest;
      FirstFreeFits(rem[0].host, occupy, p);
      PickIsFirstFit(rem[1..], occupy + {p as int}, rest);
      if |rest| == |rem| - 1 {
        FirstFitCons(rem, occupy, p, rest);
      }
    }
  }

  /** Allocation fails exactly when first fit meets a range without a free port. */
  lemma {:induction false} PickFails(rem: seq<Mapping>, occupy: set<int>)
    ensures Pick(rem, occupy).None? <==> exists picks :: Blocked(rem, occupy, picks)
  {
    if Pick(rem, occupy).None? {
      var picks := BlockedAt(rem, occupy);
    } else {
      forall picks ensures !Blocked(rem, occupy, picks) {
        if Blocked(rem, occupy, picks) { NotBlocked(rem, occupy, picks); }
      }
    }
  }

  lemma {:induction false} BlockedAt(rem: seq<Mapping>, occupy: set<int>) returns (picks: seq<nat>)
    requires Pick(rem, occupy).None?
    ensures Blocked(rem, occupy, picks)
  {
    var p := FirstFree(rem[0].host, occupy);
    if p.None? {
      picks := [];
      assert forall q: nat :: rem[0].host.Has(q) ==> q in Span(rem[0].host);
    } else {
      var rest := BlockedAt(rem[1..], occupy + {p.value as int});
      picks := [p.value] + rest;
      FirstFreeFits(rem[0].host, occupy, p.value);
      assert rem[..|picks|][1..] == rem[1..][..|rest|];
      FirstFitCons(rem[..|picks|], occupy, p.value, rest);
      assert rem[|picks|] == rem[1..][|rest|];
    }
  }

  lemma {:induction false} NotBlocked(rem: seq<Mapping>, occupy: set<int>, picks: seq<nat>)
    requires Blocked(rem, occupy, picks)
    ensures Pick(rem, occupy).None?
    decreases |rem|
  {
    var p := FirstFree(rem[0].host, occupy);
    if picks == [] {
      assert p.None?;
    } else {
      var rest := picks[1..];
      assert picks == [picks[0]] + rest;
      assert rem[..|picks|][1..] == rem[1..][..|rest|];
      FirstFitCons(rem[..|picks|], occupy, picks[0], rest);
      FirstFreeFits(rem[0].host, occupy, picks[0]);
      assert rem[|picks|] == rem[1..][|rest|];
      NotBlocked(rem[1..], occupy + {picks[0] as int}, rest);
    }
  }

  /**
   When the undetermined mappings all offer the same range, as those without a host port do,
   allocation succeeds exactly when the range has enough free ports.
   */
  lemma {:induction false} PickFromOneRange(rem: seq<Mapping>, occupy: set<int>, r: Range)
    requires forall m :: m in rem ==> m.host == r
    ensures Pick(rem, occupy).Some? <==> |Span(r) - occupy| >= |rem|
  {
    if rem == [] {
    } else {
      assert rem[0] in rem && forall m :: m in rem[1..] ==> m in rem;
      var p := FirstFree(r, occupy);
      if p.None? {
        assert Span(r) - occupy == {};
      } else {
        var free := Span(r) - occupy;
        assert p.value as int in free;
        assert Span(r) - (occupy + {p.value as int}) == free - {p.value as int};
        PickFromOneRange(rem[1..], occupy + {p.value as int}, r);
      }
    }
  }

  // ---- the sorted singles ----

  lemma {:induction false} NoDupCount(s: seq<int>)
    ensures NoDup(s) <==> forall p :: multiset(s)[p] <= 1
  {
    if s == [] {
    } else {
      var x, rest := s[0], s[1..];
      assert s == [x] + rest;
      NoDupCount(rest);
      if NoDup(s) {
        assert x !in rest;
        assert forall p :: multiset(s)[p] <= 1;
      } else if i, j :| 0 <= i < j < |s| && s[i] == s[j] {
        if i == 0 {
          assert x == rest[j - 1];
          assert multiset(s)[x] >= 2;
        } else {
          assert rest[i - 1] == rest[j - 1];
          var p :| multiset(rest)[p] > 1;
          assert multiset(s)[p] > 1;
        }
      }
    }
  }

  lemma SortedNoDup(s: seq<int>)
    requires NoDup(s)
    ensures NoDup(SortInts(s))
  {
    NoDupCount(s);
    NoDupCount(SortInts(s));
  }

  lemma {:induction false} IndexKeeps(ms: seq<Mapping>, acc: map<int, Mapping>, p: int)
    requires forall m :: m in ms ==> m.host.start != p
    ensures (p in IndexByHost(ms, acc) <==> p in acc) && (p in acc ==> IndexByHost(ms, acc)[p] == acc[p])
  {
    if ms == [] {
    } else {
      assert ms[0] in ms && forall m :: m in ms[1..] ==> m in ms;
      IndexKeeps(ms[1..], acc[ms[0].host.start := ms[0]], p);
    }
  }

  lemma {:induction false} IndexHas(ms: seq<Mapping>, acc: map<int, Mapping>, i: nat)
    requires i < |ms| && NoDup(Starts(ms))
    ensures var r := IndexByHost(ms, acc); var p := ms[i].host.start; p in r && r[p] == ms[i]
  {
    var rest, acc1 := ms[1..], acc[ms[0].host.start := ms[0]];
    assert Starts(rest) == Starts(ms)[1..];
    if i == 0 {
      forall m | m in rest ensures m.host.start != ms[0].host.start {
        var k :| 0 <= k < |rest| && rest[k] == m;
        assert Starts(ms)[0] != Starts(ms)[k + 1];
      }
      IndexKeeps(rest, acc1, ms[0].host.start);
    } else {
      IndexHas(rest, acc1, i - 1);
    }
  }

  lemma {:induction false} IndexAppend(a: seq<Mapping>, b: seq<Mapping>, acc: map<int, Mapping>)
    ensures IndexByHost(a + b, acc) == IndexByHost(b, IndexByHost(a, acc))
  {
    if a == [] {
      assert a + b == b;
    } else {
      assert (a + b)[1..] == a[1..] + b;
      IndexAppend(a[1..], b, acc[a[0].host.start := a[0]]);
    }
  }

  /** `index` holds each of `ss` under its host port, and `ports` are these host ports in order. */
  ghost predicate Indexed(ss: seq<Mapping>, ports: seq<int>, index: map<int, Mapping>) {
    && Sorted(ports) && NoDup(ports)
    && (forall p :: p in ports <==> p in Starts(ss))
    && (forall i :: 0 <= i < |ss| ==> ss[i].host.start in index && index[ss[i].host.start] == ss[i])
  }

  lemma IsIndexed(ss: seq<Mapping>)
    requires NoDup(Starts(ss))
    ensures Indexed(ss, SortInts(Starts(ss)), IndexByHost(ss, map[]))
  {
    SortedIn(Starts(ss));
    SortedNoDup(Starts(ss));
    forall i | 0 <= i < |ss|
      ensures var index := IndexByHost(ss, map[]); ss[i].host.start in index && index[ss[i].host.start] == ss[i]
    {
      IndexHas(ss, map[], i);
    }
  }

  /** What the index holds under a port is the single with that host port. */
  lemma FoundAt(ss: seq<Mapping>, ports: seq<int>, index: map<int, Mapping>, i: nat)
    requires Indexed(ss, ports, index) && i < |ports|
    ensures ports[i] in index && index[ports[i]] in ss && index[ports[i]].host.start == ports[i]
  {
    assert ports[i] in ports;
    var k :| 0 <= k < |Starts(ss)| && Starts(ss)[k] == ports[i];
    assert index[ports[i]] == ss[k];
  }

  lemma EachIsListed(ss: seq<Mapping>, ports: seq<int>, index: map<int, Mapping>, k: nat)
    requires Indexed(ss, ports, index) && k < |ss|
    requires forall i :: 0 <= i < |ports| ==> ports[i] in index
    ensures ss[k] in Lookup(ports, index)
  {
    assert Starts(ss)[k] in Starts(ss);
    var i :| 0 <= i < |ports| && ports[i] == Starts(ss)[k];
    assert Lookup(ports, index)[i] == ss[k];
  }

  /** Looking the ports up lists the singles in the order of their host ports. */
  lemma Listed(ss: seq<Mapping>, ports: seq<int>, index: map<int, Mapping>)
    requires Indexed(ss, ports, index)
    ensures forall i :: 0 <= i < |ports| ==> ports[i] in index
    ensures forall m :: m in Lookup(ports, index) <==> m in ss
    ensures Rising(Lookup(ports, index))
  {
    forall i | 0 <= i < |ports|
      ensures ports[i] in index && index[ports[i]] in ss && index[ports[i]].host.start == ports[i]
    {
      FoundAt(ss, ports, index, i);
    }
    forall m | m in ss ensures m in Lookup(ports, index) {
      var k :| 0 <= k < |ss| && ss[k] == m;
      EachIsListed(ss, ports, index, k);
    }
    ListedRising(ports, index);
  }

  lemma ListedRising(ports: seq<int>, index: map<int, Mapping>)
    requires Sorted(ports) && NoDup(ports)
    requires forall i :: 0 <= i < |ports| ==> ports[i] in index && index[ports[i]].host.start == ports[i]
    ensures Rising(Lookup(ports, index))
  {
    var ms := Lookup(ports, index);
    forall i, j | 0 <= i < j < |ms| ensures ms[i].host.start < ms[j].host.start {
      assert ports[i] <= ports[j] && ports[i] != ports[j];
    }
  }

  // ---- the third loop ----

  ghost predicate Rising(ms: seq<Mapping>) {
    forall i, j :: 0 <= i < j < |ms| ==> ms[i].host.start < ms[j].host.start
  }

  predicate IsSingle(m: Mapping) {
    m.host.start == m.host.end && m.container.start == m.container.end
  }

  /** Host and container side are equally long. */
  predicate Shaped(m: Mapping) {
    m.host.start <= m.host.end && m.host.end - m.host.start == m.container.end - m.container.start
  }

  lemma MapsAnyCons(m: Mapping, ms: seq<Mapping>, h: int, c: int)
    ensures MapsAny([m] + ms, h, c) <==> Maps(m, h, c) || MapsAny(ms, h, c)
  {
    var all := [m] + ms;
    assert forall x :: x in all <==> x == m || x in ms;
    if Maps(m, h, c) { assert m in all; }
  }

  /** Joining runs changes no port's destination. */
  lemma {:induction false} JoinMaps(last: Mapping, ms: seq<Mapping>, h: int, c: int)
    requires Shaped(last) && forall m :: m in ms ==> IsSingle(m)
    ensures MapsAny(Join(last, ms), h, c) <==> Maps(last, h, c) || MapsAny(ms, h, c)
    decreases |ms|
  {
    if ms == [] {
      assert [last] == [last] + [];
      MapsAnyCons(last, [], h, c);
    } else {
      var cur, rest := ms[0], ms[1..];
      assert ms == [cur] + rest && cur in ms && forall m :: m in rest ==> m in ms;
      MapsAnyCons(cur, rest, h, c);
      if Continues(last, cur) {
        JoinMaps(Extended(last), rest, h, c);
      } else {
        JoinMaps(cur, rest, h, c);
        MapsAnyCons(last, Join(cur, rest), h, c);
      }
    }
  }

  /** Runs are shaped, apart from each other in host order, and no run continues another. */
  ghost predicate RunsOk(rs: seq<Mapping>) {
    && (forall i :: 0 <= i < |rs| ==> Shaped(rs[i]))
    && (forall i, j :: 0 <= i < j < |rs| ==> rs[i].host.end < rs[j].host.start)
    && (forall i, j :: 0 <= i < |rs| && 0 <= j < |rs| ==> !Continues(rs[i], rs[j]))
  }

  lemma RunsCons(last: Mapping, rs: seq<Mapping>)
    requires Shaped(last) && RunsOk(rs) && rs != []
    requires last.host.end < rs[0].host.start && !Continues(last, rs[0])
    ensures RunsOk([last] + rs)
  {
    var all := [last] + rs;
    forall k | 0 <= k < |rs| ensures last.host.end < rs[k].host.start && !Continues(last, rs[k]) && !Continues(rs[k], last) {
      assert k == 0 || rs[0].host.end < rs[k].host.start;
    }
  }

  lemma {:induction false} JoinRuns(last: Mapping, ms: seq<Mapping>)
    requires Shaped(last) && (forall m :: m in ms ==> IsSingle(m)) && Rising(ms)
    requires ms != [] ==> last.host.end < ms[0].host.start
    ensures RunsOk(Join(last, ms)) && Join(last, ms)[0].container.start == last.container.start
    decreases |ms|
  {
    if ms == [] {
    } else {
      var cur, rest := ms[0], ms[1..];
      assert cur in ms && forall m :: m in rest ==> m in ms;
      if Continues(last, cur) {
        JoinRuns(Extended(last), rest);
      } else {
        JoinRuns(cur, rest);
        RunsCons(last, Join(cur, rest));
      }
    }
  }

  // ---- the whole merge ----

  lemma {:induction false} DeterminedSplit(pms: seq<Mapping>, m: Mapping)
    ensures m in Determined(pms) <==> m in Ranges(pms) || m in Singles(pms)
    ensures m in Determined(pms) || m in Undetermined(pms) ==> m in pms
  {
    if pms == [] {
    } else {
      DeterminedSplit(pms[1..], m);
    }
  }

  lemma {:induction false} FilterKinds(pms: seq<Mapping>, m: Mapping)
    requires AllValid(pms)
    ensures m in Ranges(pms) ==> Shaped(m) && m.Valid()
    ensures m in Singles(pms) ==> IsSingle(m) && m.Valid()
    ensures m in Undetermined(pms) ==> m.container.start == m.container.end && m.Valid()
  {
    if pms == [] {
    } else {
      TailValid(pms);
      FilterKinds(pms[1..], m);
    }
  }

  /** Distinct host ports, apart from the ranges. */
  ghost predicate Apart(ss: seq<Mapping>, rs: seq<Mapping>) {
    NoDup(Starts(ss)) && DisjointHosts(rs) && forall p :: p in Starts(ss) ==> p !in Hosts(rs)
  }

  ghost predicate Covers(all: set<int>, ss: seq<Mapping>, rs: seq<Mapping>) {
    Hosts(rs) <= all && forall p :: p in Starts(ss) ==> p in all
  }

  lemma ApartRange(m: Mapping, ss: seq<Mapping>, rs: seq<Mapping>, all: set<int>)
    requires Apart(ss, rs) && Covers(all, ss, rs) && Span(m.host) !! all
    ensures Apart(ss, [m] + rs) && Covers(Span(m.host) + all, ss, [m] + rs)
  {
    assert ([m] + rs)[1..] == rs;
    DisjointCons(m, rs);
  }

  lemma ApartSingle(m: Mapping, ss: seq<Mapping>, rs: seq<Mapping>, all: set<int>)
    requires Apart(ss, rs) && Covers(all, ss, rs) && Span(m.host) !! all && m.host.Valid()
    ensures Apart([m] + ss, rs) && Covers(Span(m.host) + all, [m] + ss, rs)
  {
    assert ([m] + ss)[1..] == ss;
    assert m.host.start in Span(m.host);
    assert Starts([m] + ss) == [m.host.start] + Starts(ss);
    assert forall i :: 0 <= i < |ss| ==> Starts(ss)[i] in Starts(ss);
  }

  lemma {:induction false} InputsApart(pms: seq<Mapping>)
    requires AllValid(pms) && DisjointHosts(Determined(pms))
    ensures Apart(Singles(pms), Ranges(pms)) && Covers(Hosts(Determined(pms)), Singles(pms), Ranges(pms))
  {
    if pms == [] {
    } else {
      TailValid(pms);
      var m, rest := pms[0], pms[1..];
      if m.NotDetermined() {
        InputsApart(rest);
      } else {
        var ds := Determined(rest);
        assert ([m] + ds)[1..] == ds;
        DisjointCons(m, ds);
        InputsApart(rest);
        if m.IsRange() {
          ApartRange(m, Singles(rest), Ranges(rest), Hosts(ds));
        } else {
          ApartSingle(m, Singles(rest), Ranges(rest), Hosts(ds));
        }
      }
    }
  }

  lemma NoDupAppend(a: seq<int>, b: seq<int>)
    requires NoDup(a) && NoDup(b) && forall x :: x in b ==> x !in a
    ensures NoDup(a + b)
  {
    forall i, j | 0 <= i < j < |a + b| ensures (a + b)[i] != (a + b)[j] {
      if i < |a| <= j {
        assert b[j - |a|] in b && a[i] in a;
      }
    }
  }

  lemma PicksFresh(rem: seq<Mapping>, occupy: set<int>, picks: seq<nat>)
    requires FirstFit(rem, occupy, picks)
    ensures var ps := Starts(Settle(rem, picks)); NoDup(ps) && forall p :: p in ps ==> p !in occupy
  {
    var ps := Starts(Settle(rem, picks));
    forall i | 0 <= i < |ps| ensures ps[i] !in occupy && forall j :: 0 <= j < i ==> ps[j] != ps[i] {
      assert FitsAt(rem[i].host, occupy, picks[..i], picks[i]);
      assert forall j :: 0 <= j < i ==> picks[j] == picks[..i][j];
    }
  }

  lemma StartsAppend(a: seq<Mapping>, b: seq<Mapping>)
    ensures Starts(a + b) == Starts(a) + Starts(b)
  {
    assert forall i :: 0 <= i < |a + b| ==> Starts(a + b)[i] == (Starts(a) + Starts(b))[i];
  }

  lemma SettledApart(ss: seq<Mapping>, rs: seq<Mapping>, all: set<int>, rem: seq<Mapping>, picks: seq<nat>)
    requires Apart(ss, rs) && Covers(all, ss, rs) && FirstFit(rem, all, picks)
    ensures Apart(ss + Settle(rem, picks), rs)
  {
    var ts := Settle(rem, picks);
    PicksFresh(rem, all, picks);
    NoDupAppend(Starts(ss), Starts(ts));
    StartsAppend(ss, ts);
  }

  /** Everything that ends up as a single port. */
  function SettledSingles(pms: seq<Mapping>, picks: seq<nat>): seq<Mapping>
    requires |picks| == |Undetermined(pms)|
  {
    Singles(pms) + Settle(Undetermined(pms), picks)
  }

  /** The loops together, in terms of the inputs. */
  lemma MergeUnfolds(pms: seq<Mapping>)
    requires AllValid(pms)
    ensures var picks := Pick(Undetermined(pms), Hosts(Determined(pms)));
            if !DisjointHosts(Determined(pms)) || picks.None? then Merge(pms).None?
            else
              var ss := SettledSingles(pms, picks.value);
              var ports, index := SortInts(Starts(ss)), IndexByHost(ss, map[]);
              && (forall i :: 0 <= i < |ports| ==> ports[i] in index)
              && Merge(pms) == Some(Ranges(pms) + Runs(Lookup(ports, index)))
  {
    ClassifyMeaning(pms, START);
    if DisjointHosts(Determined(pms)) {
      var st := AfterStart(pms);
      ClassifyKeys(pms, START);
      AllocateMeaning(st.remains, st.occupy, st.singles, st.order);
      var picks := Pick(st.remains, st.occupy);
      if picks.Some? {
        var ts := Settle(st.remains, picks.value);
        IndexAppend(Singles(pms), ts, map[]);
        StartsAppend(Singles(pms), ts);
        SortedKeys(st, ts);
      }
    }
  }

  lemma AfterStart(pms: seq<Mapping>) returns (st: Plan)
    ensures st == After(START, pms)
    ensures st == Plan(Hosts(Determined(pms)), Ranges(pms), IndexByHost(Singles(pms), map[]), Undetermined(pms),
                       Starts(Singles(pms)))
  {
    st := After(START, pms);
    assert forall s: seq<Mapping> {:trigger [] + s} :: [] + s == s;
    assert forall s: seq<int> {:trigger [] + s} :: [] + s == s;
  }

  lemma SortedKeys(st: Plan, ts: seq<Mapping>)
    requires forall p :: p in st.order ==> p in st.singles
    ensures var ports := SortInts(st.order + Starts(ts));
            forall i :: 0 <= i < |ports| ==> ports[i] in IndexByHost(ts, st.singles)
  {
    var order := st.order + Starts(ts);
    SortedIn(order);
    assert forall i :: 0 <= i < |SortInts(order)| ==> SortInts(order)[i] in SortInts(order);
    forall p | p in order ensures p in IndexByHost(ts, st.singles) { IndexCovers(ts, st.singles, p); }
  }

  lemma {:induction false} IndexCovers(ts: seq<Mapping>, acc: map<int, Mapping>, p: int)
    requires p in acc || p in Starts(ts)
    ensures p in IndexByHost(ts, acc)
  {
    if ts == [] {
    } else {
      IndexCovers(ts[1..], acc[ts[0].host.start := ts[0]], p);
    }
  }

  /** Merging succeeds exactly when no two determined mappings share a host port and first fit is never blocked. */
  lemma MergeSucceeds(pms: seq<Mapping>)
    requires AllValid(pms)
    ensures Merge(pms).Some? <==>
            && DisjointHosts(Determined(pms))
            && !exists picks :: Blocked(Undetermined(pms), Hosts(Determined(pms)), picks)
  {
    MergeUnfolds(pms);
    PickFails(Undetermined(pms), Hosts(Determined(pms)));
  }

  /** The result is the ranges followed by the runs of the sorted singles. */
  lemma MergeShape(pms: seq<Mapping>) returns (picks: seq<nat>, ms: seq<Mapping>)
    requires AllValid(pms) && Merge(pms).Some?
    ensures FirstFit(Undetermined(pms), Hosts(Determined(pms)), picks)
    ensures Merge(pms).value == Ranges(pms) + Runs(ms)
    ensures Apart(SettledSingles(pms, picks), Ranges(pms))
    ensures forall m :: m in ms <==> m in SettledSingles(pms, picks)
    ensures Rising(ms)
  {
    var occupy, rem := Hosts(Determined(pms)), Undetermined(pms);
    MergeUnfolds(pms);
    picks := Pick(rem, occupy).value;
    PickIsFirstFit(rem, occupy, picks);
    InputsApart(pms);
    SettledApart(Singles(pms), Ranges(pms), occupy, rem, picks);
    var ss := SettledSingles(pms, picks);
    IsIndexed(ss);
    Listed(ss, SortInts(Starts(ss)), IndexByHost(ss, map[]));
    ms := Lookup(SortInts(Starts(ss)), IndexByHost(ss, map[]));
  }

  lemma SinglesOk(pms: seq<Mapping>, picks: seq<nat>)
    requires AllValid(pms) && |picks| == |Undetermined(pms)|
    ensures forall m :: m in SettledSingles(pms, picks) ==> IsSingle(m)
  {
    var ts := Settle(Undetermined(pms), picks);
    forall m | m in SettledSingles(pms, picks) ensures IsSingle(m) {
      if m in Singles(pms) {
        FilterKinds(pms, m);
      } else {
        var i :| 0 <= i < |ts| && ts[i] == m;
        FilterKinds(pms, Undetermined(pms)[i]);
      }
    }
  }

  lemma RunsMap(ms: seq<Mapping>, h: int, c: int)
    requires forall m :: m in ms ==> IsSingle(m)
    ensures MapsAny(Runs(ms), h, c) <==> MapsAny(ms, h, c)
  {
    if ms != [] {
      assert ms[0] in ms && forall m :: m in ms[1..] ==> m in ms;
      assert ms == [ms[0]] + ms[1..];
      MapsAnyCons(ms[0], ms[1..], h, c);
      JoinMaps(ms[0], ms[1..], h, c);
    }
  }

  /** Port `h` was picked for an undetermined mapping whose container port is `c`. */
  ghost predicate Picked(rem: seq<Mapping>, picks: seq<nat>, h: int, c: int)
    requires |picks| == |rem|
  {
    exists i :: 0 <= i < |rem| && picks[i] == h && rem[i].container.start == c
  }

  lemma SettledMaps(pms: seq<Mapping>, picks: seq<nat>, h: int, c: int)
    requires |picks| == |Undetermined(pms)|
    ensures MapsAny(SettledSingles(pms, picks), h, c)
            <==> MapsAny(Singles(pms), h, c) || Picked(Undetermined(pms), picks, h, c)
  {
    var rem := Undetermined(pms);
    var ss, ts := SettledSingles(pms, picks), Settle(rem, picks);
    assert forall m :: m in ss <==> m in Singles(pms) || m in ts;
    if i :| 0 <= i < |rem| && picks[i] == h && rem[i].container.start == c {
      assert ts[i] in ss && Maps(ts[i], h, c);
    }
  }

  /**
   Merging keeps the meaning: a host port goes to a container port afterwards exactly when a
   determined mapping sent it there, or it was picked for an undetermined mapping with that
   container port.
   */
  lemma MergeMeaning(pms: seq<Mapping>, picks: seq<nat>, h: int, c: int)
    requires AllValid(pms) && Merge(pms).Some?
    requires FirstFit(Undetermined(pms), Hosts(Determined(pms)), picks)
    ensures MapsAny(Merge(pms).value, h, c)
            <==> MapsAny(Determined(pms), h, c) || Picked(Undetermined(pms), picks, h, c)
  {
    var picks', ms := MergeShape(pms);
    PickIsFirstFit(Undetermined(pms), Hosts(Determined(pms)), picks);
    PickIsFirstFit(Undetermined(pms), Hosts(Determined(pms)), picks');
    SinglesOk(pms, picks);
    RunsMap(ms, h, c);
    SettledMaps(pms, picks, h, c);
    forall m ensures m in Determined(pms) <==> m in Ranges(pms) || m in Singles(pms) { DeterminedSplit(pms, m); }
    assert forall m :: m in Merge(pms).value <==> m in Ranges(pms) || m in Runs(ms);
  }

  lemma DisjointAppend(a: seq<Mapping>, b: seq<Mapping>)
    requires DisjointHosts(a) && DisjointHosts(b) && Hosts(a) !! Hosts(b)
    ensures DisjointHosts(a + b)
  {
    var all := a + b;
    forall i, j | 0 <= i < j < |all| ensures Span(all[i].host) !! Span(all[j].host) {
      if i < |a| <= j {
        forall p | p in Span(all[i].host) ensures p !in Span(all[j].host) {
          HostsHas(a, p);
          HostsHas(b, p);
          assert all[j] == b[j - |a|];
        }
      }
    }
  }

  lemma RunHosts(ms: seq<Mapping>, p: int)
    requires (forall m :: m in ms ==> IsSingle(m)) && p in Hosts(Runs(ms))
    ensures p in Starts(ms)
  {
    HostsHas(Runs(ms), p);
    var i :| 0 <= i < |Runs(ms)| && p in Span(Runs(ms)[i].host);
    var r := Runs(ms)[i];
    var c := r.container.start + (p - r.host.start);
    assert Maps(r, p, c) && r in Runs(ms);
    RunsMap(ms, p, c);
    var m :| m in ms && Maps(m, p, c);
    var k :| 0 <= k < |ms| && ms[k] == m;
    assert Starts(ms)[k] == p;
  }

  lemma RunsApart(ms: seq<Mapping>, ss: seq<Mapping>, rs: seq<Mapping>)
    requires Apart(ss, rs) && (forall m :: m in ss ==> IsSingle(m)) && (forall m :: m in ms <==> m in ss)
    ensures Hosts(rs) !! Hosts(Runs(ms))
  {
    forall p | p in Hosts(Runs(ms)) ensures p !in Hosts(rs) {
      RunHosts(ms, p);
      var k :| 0 <= k < |Starts(ms)| && Starts(ms)[k] == p;
      assert ms[k] in ss;
      var i :| 0 <= i < |ss| && ss[i] == ms[k];
      assert Starts(ss)[i] == p;
    }
  }

  lemma RunsFromSorted(ms: seq<Mapping>)
    requires Rising(ms) && forall m :: m in ms ==> IsSingle(m)
    ensures RunsOk(Runs(ms)) && DisjointHosts(Runs(ms))
  {
    if ms != [] {
      assert ms[0] in ms && forall m :: m in ms[1..] ==> m in ms;
      JoinRuns(ms[0], ms[1..]);
    }
  }

  /** The result's host ranges are disjoint, and no two of the runs it ends with could still be joined. */
  lemma MergeDisjoint(pms: seq<Mapping>) returns (runs: seq<Mapping>)
    requires AllValid(pms) && Merge(pms).Some?
    ensures DisjointHosts(Merge(pms).value)
    ensures Merge(pms).value == Ranges(pms) + runs && RunsOk(runs)
  {
    var picks, ms := MergeShape(pms);
    SinglesOk(pms, picks);
    runs := Runs(ms);
    RunsFromSorted(ms);
    RunsApart(ms, SettledSingles(pms, picks), Ranges(pms));
    DisjointAppend(Ranges(pms), runs);
  }

  lemma {:induction false} JoinProtocol(last: Mapping, ms: seq<Mapping>, proto: string)
    requires last.protocol == proto && forall m :: m in ms ==> m.protocol == proto
    ensures forall r :: r in Join(last, ms) ==> r.protocol == proto
    decreases |ms|
  {
    if ms == [] {
    } else {
      assert ms[0] in ms && forall m :: m in ms[1..] ==> m in ms;
      JoinProtocol(if Continues(last, ms[0]) then Extended(last) else ms[0], ms[1..], proto);
    }
  }

  /** Mappings of one protocol stay mappings of that protocol. */
  lemma MergeProtocol(pms: seq<Mapping>, proto: string)
    requires AllValid(pms) && Merge(pms).Some? && forall m :: m in pms ==> m.protocol == proto
    ensures forall r :: r in Merge(pms).value ==> r.protocol == proto
  {
    var picks, ms := MergeShape(pms);
    var ts := Settle(Undetermined(pms), picks);
    forall m ensures m in Ranges(pms) || m in Singles(pms) || m in Undetermined(pms) ==> m in pms {
      DeterminedSplit(pms, m);
    }
    forall m | m in ms ensures m.protocol == proto {
      if m !in Singles(pms) {
        var i :| 0 <= i < |ts| && ts[i] == m;
        assert Undetermined(pms)[i] in Undetermined(pms);
      }
    }
    if ms != [] {
      assert ms[0] in ms && forall m :: m in ms[1..] ==> m in ms;
      JoinProtocol(ms[0], ms[1..], proto);
    }
  }

  /**
   First fit can refuse mappings that another choice of ports would satisfy: 1-3 takes port 1
   first, and then 1-2 twice is one port short.
   */
  lemma FirstFitIsGreedy(a: Mapping, b: Mapping, pms: seq<Mapping>)
    requires a.host == Range(1, 3) && b.host == Range(1, 2) && pms == [a, b, b]
    requires a.Valid() && b.Valid() && a.NotDetermined() && b.NotDetermined()
    ensures Merge(pms).None? && pms[0].host.Has(3) && pms[1].host.Has(1) && pms[2].host.Has(2)
  {
    NoneDetermined(pms);
    GreedyBlocks(a, b, pms);
    BlockedFails(pms, [1, 2]);
  }

  lemma BlockedFails(pms: seq<Mapping>, picks: seq<nat>)
    requires AllValid(pms) && Blocked(Undetermined(pms), Hosts(Determined(pms)), picks)
    ensures Merge(pms).None?
  {
    NotBlocked(Undetermined(pms), Hosts(Determined(pms)), picks);
    MergeUnfolds(pms);
  }

  lemma {:induction false} NoneDetermined(pms: seq<Mapping>)
    requires forall m :: m in pms ==> m.NotDetermined()
    ensures Undetermined(pms) == pms && Determined(pms) == []
  {
    if pms == [] {
    } else {
      assert pms[0] in pms && forall m :: m in pms[1..] ==> m in pms;
      NoneDetermined(pms[1..]);
    }
  }

  lemma GreedyBlocks(a: Mapping, b: Mapping, pms: seq<Mapping>)
    requires a.host == Range(1, 3) && b.host == Range(1, 2) && pms == [a, b, b]
    ensures Blocked(pms, {}, [1, 2])
  {
    var picks: seq<nat> := [1, 2];
    assert FitsAt(a.host, {}, picks[..0], 1);
    assert picks[..1] == [1];
    assert FitsAt(b.host, {}, picks[..1], 2);
    assert pms[..2] == [a, b];
    assert forall q: nat :: b.host.Has(q) ==> q == 1 || q == 2;
  }
}
