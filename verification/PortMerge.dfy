/**
 Merging of port mappings: determined mappings keep their host ports, undetermined ones get a
 free port each, and runs of single ports become ranges.
 */
module PortMerge {
  import opened Basics
  import opened PortText

  function Span(r: Range): set<int> {
    set p: int {:trigger r.Has(p)} | r.start <= p <= r.end && r.Has(p)
  }

  // ---- what the code computes, on values ----

  /** The variables of the first loop. */
  datatype Plan = Plan(
    occupy: set<int>,
    ranges: seq<Mapping>,
    singles: map<int, Mapping>,
    remains: seq<Mapping>,
    order: seq<int>)

  /** One turn of the first loop. */
  function ClassifyOne(m: Mapping, st: Plan): Option<Plan> {
    if m.NotDetermined() then Some(st.(remains := st.remains + [m]))
    else if !(Span(m.host) !! st.occupy) then None
    else if m.IsRange() then Some(st.(occupy := st.occupy + Span(m.host), ranges := st.ranges + [m]))
    else Some(st.(occupy := st.occupy + Span(m.host), singles := st.singles[m.host.start := m],
                  order := st.order + [m.host.start]))
  }

  function Classify(pms: seq<Mapping>, st: Plan): Option<Plan> {
    if pms == [] then Some(st)
    else
      var next := ClassifyOne(pms[0], st);
      if next.None? then None else Classify(pms[1..], next.value)
  }

  /** The lowest port of the range that is not occupied. */
  function FirstFree(r: Range, occupy: set<int>): (p: Option<nat>)
    ensures p.None? ==> Span(r) <= occupy
    ensures p.Some? ==> r.Has(p.value) && p.value !in occupy && forall q :: r.start <= q < p.value ==> q in occupy
    decreases r.end - r.start
  {
    if r.start > r.end then None
    else if r.start !in occupy then Some(r.start)
    else FirstFree(Range(r.start + 1, r.end), occupy)
  }

  function Settled(m: Mapping, p: nat): Mapping {
    m.(host := Range(p, p))
  }

  /** The second loop. */
  function Allocate(rem: seq<Mapping>, occupy: set<int>, singles: map<int, Mapping>, order: seq<int>)
    : Option<(map<int, Mapping>, seq<int>)>
  {
    if rem == [] then Some((singles, order))
    else
      var p := FirstFree(rem[0].host, occupy);
      if p.None? then None
      else
        Allocate(rem[1..], occupy + {p.value}, singles[p.value := Settled(rem[0], p.value)], order + [p.value])
  }

  ghost predicate Sorted(s: seq<int>) {
    forall i, j :: 0 <= i < j < |s| ==> s[i] <= s[j]
  }

  function Insert(x: int, s: seq<int>): (r: seq<int>)
    ensures multiset(r) == multiset{x} + multiset(s)
  {
    if s == [] || x <= s[0] then [x] + s
    else
      assert s == [s[0]] + s[1..];
      [s[0]] + Insert(x, s[1..])
  }

  lemma ConsSorted(x: int, s: seq<int>)
    requires Sorted(s) && forall y :: y in s ==> x <= y
    ensures Sorted([x] + s)
  {
    assert forall i :: 0 <= i < |s| ==> s[i] in s;
  }

  lemma {:induction false} InsertSorted(x: int, s: seq<int>)
    requires Sorted(s)
    ensures Sorted(Insert(x, s))
  {
    if s == [] || x <= s[0] {
      ConsSorted(x, s);
    } else {
      InsertSorted(x, s[1..]);
      var rest := Insert(x, s[1..]);
      assert forall y :: y in rest <==> y in multiset(rest);
      ConsSorted(s[0], rest);
    }
  }

  /** `sort.Ints`. */
  function SortInts(s: seq<int>): (r: seq<int>)
    ensures Sorted(r) && multiset(r) == multiset(s)
  {
    if s == [] then []
    else
      assert s == [s[0]] + s[1..];
      InsertSorted(s[0], SortInts(s[1..]));
      Insert(s[0], SortInts(s[1..]))
  }

  function Extended(m: Mapping): Mapping {
    m.(host := Range(m.host.start, m.host.end + 1), container := Range(m.container.start, m.container.end + 1))
  }

  predicate Continues(last: Mapping, cur: Mapping) {
    cur.host.start - last.host.end == 1 && cur.container.start - last.container.end == 1
  }

  /** The third loop, once it has a current run. */
  function Join(last: Mapping, ms: seq<Mapping>): (r: seq<Mapping>)
    ensures r != [] && r[0].host.start == last.host.start
    decreases |ms|
  {
    if ms == [] then [last]
    else if Continues(last, ms[0]) then Join(Extended(last), ms[1..])
    else [last] + Join(ms[0], ms[1..])
  }

  function Runs(ms: seq<Mapping>): seq<Mapping> {
    if ms == [] then [] else Join(ms[0], ms[1..])
  }

  function Lookup(ps: seq<int>, singles: map<int, Mapping>): (r: seq<Mapping>)
    requires forall i :: 0 <= i < |ps| ==> ps[i] in singles
    ensures |r| == |ps| && forall i :: 0 <= i < |ps| ==> r[i] == singles[ps[i]]
  {
    if ps == [] then [] else [singles[ps[0]]] + Lookup(ps[1..], singles)
  }

  const START := Plan({}, [], map[], [], [])

  function Merge(pms: seq<Mapping>): Option<seq<Mapping>> {
    var plan := Classify(pms, START);
    if plan.None? then None
    else
      ClassifyKeys(pms, START);
      var st := plan.value;
      var settled := Allocate(st.remains, st.occupy, st.singles, st.order);
      if settled.None? then None
      else
        AllocateKeys(st.remains, st.occupy, st.singles, st.order);
        var ports := SortInts(settled.value.1);
        SortedIn(settled.value.1);
        assert forall i :: 0 <= i < |ports| ==> ports[i] in ports;
        Some(st.ranges + Runs(Lookup(ports, settled.value.0)))
  }

  lemma SortedIn(s: seq<int>)
    ensures forall p :: p in SortInts(s) <==> p in s
  {
    assert forall p :: p in SortInts(s) <==> p in multiset(SortInts(s));
    assert forall p :: p in s <==> p in multiset(s);
  }

  lemma {:induction false} ClassifyKeys(pms: seq<Mapping>, st: Plan)
    requires forall p :: p in st.order ==> p in st.singles
    requires Classify(pms, st).Some?
    ensures var st' := Classify(pms, st).value; forall p :: p in st'.order ==> p in st'.singles
  {
    if pms == [] {
    } else {
      ClassifyKeys(pms[1..], ClassifyOne(pms[0], st).value);
    }
  }

  lemma {:induction false} AllocateKeys(rem: seq<Mapping>, occupy: set<int>, singles: map<int, Mapping>, order: seq<int>)
    requires forall p :: p in order ==> p in singles
    requires Allocate(rem, occupy, singles, order).Some?
    ensures var r := Allocate(rem, occupy, singles, order).value; forall p :: p in r.1 ==> p in r.0
  {
    if rem == [] {
    } else {
      var p := FirstFree(rem[0].host, occupy).value;
      AllocateKeys(rem[1..], occupy + {p}, singles[p := Settled(rem[0], p)], order + [p]);
    }
  }
}
