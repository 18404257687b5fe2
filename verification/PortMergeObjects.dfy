/**
 The merge as it runs: mapping objects whose ranges are changed in place. Each loop is proved
 against the function that describes it.
 */
module PortMergeObjects {
  import opened Basics
  import opened PortText
  import opened PortMerge
  import opened PortMergeTheorems

  /** A mapping object. */
  class Entry {
    var host: Range
    var container: Range
    const protocol: string

    constructor (m: Mapping)
      ensures Value() == m
    {
      host, container, protocol := m.host, m.container, m.protocol;
    }

    function Value(): Mapping
      reads this
    {
      Mapping(host, container, protocol)
    }
  }

  function Values(es: seq<Entry>): (r: seq<Mapping>)
    reads es
    ensures |r| == |es| && forall i :: 0 <= i < |es| ==> r[i] == es[i].Value()
  {
    seq(|es|, i requires 0 <= i < |es| reads es => es[i].Value())
  }

  /** The singles table holds the mappings of `index` under the same ports. */
  ghost predicate Mirrors(singles: map<int, Entry>, index: map<int, Mapping>)
    reads singles.Values
  {
    singles.Keys == index.Keys && forall p :: p in singles ==> singles[p].Value() == index[p]
  }

  /** The variables of the loops, over objects. */
  datatype Work = Work(
    occupy: set<int>,
    results: seq<Entry>,
    singles: map<int, Entry>,
    remains: seq<Entry>,
    order: seq<int>)

  ghost predicate Shows(w: Work, st: Plan)
    reads w.results, w.singles.Values, w.remains
  {
    && w.occupy == st.occupy && w.order == st.order
    && Values(w.results) == st.ranges && Values(w.remains) == st.remains
    && Mirrors(w.singles, st.singles)
  }

  /** Every object has one place, and it is one of `used`. */
  ghost predicate Separate(w: Work, used: set<Entry>) {
    && (forall e :: e in w.results ==> e in used && e !in w.remains)
    && (forall e :: e in w.remains ==> e in used)
    && (forall p :: p in w.singles ==> w.singles[p] in used && w.singles[p] !in w.results && w.singles[p] !in w.remains)
    && (forall i, j :: 0 <= i < j < |w.remains| ==> w.remains[i] != w.remains[j])
    && (forall p, q :: p in w.singles && q in w.singles && p != q ==> w.singles[p] != w.singles[q])
  }

  lemma ValuesAppend(a: seq<Entry>, e: Entry)
    ensures Values(a + [e]) == Values(a) + [e.Value()]
  {
    assert forall i :: 0 <= i < |a| + 1 ==> Values(a + [e])[i] == (Values(a) + [e.Value()])[i];
  }

  /** Claims the ports of a range one by one. */
  method Claim(r: Range, occupy: set<int>) returns (ok: bool, occupy': set<int>)
    ensures ok <==> Span(r) !! occupy
    ensures ok ==> occupy' == occupy + Span(r)
  {
    occupy' := occupy;
    var i: int := r.start;
    while i <= r.end
      invariant r.start <= i && (i <= r.end + 1 || i == r.start)
      invariant forall p :: p in occupy' <==> p in occupy || (p in Span(r) && p < i)
      invariant forall p :: p in Span(r) && p < i ==> p !in occupy
    {
      assert i in Span(r);
      if i in occupy' {
        return false, occupy';
      }
      occupy' := occupy' + {i};
      i := i + 1;
    }
    ok := true;
  }

  lemma SeparateRemains(w: Work, used: set<Entry>, e: Entry)
    requires Separate(w, used) && e !in used
    ensures Separate(w.(remains := w.remains + [e]), used + {e})
  {
  }

  lemma SeparateResults(w: Work, used: set<Entry>, e: Entry)
    requires Separate(w, used) && e !in used
    ensures Separate(w.(results := w.results + [e]), used + {e})
  {
  }

  lemma SeparateSingles(w: Work, used: set<Entry>, p: int, e: Entry)
    requires Separate(w, used) && e !in used
    ensures Separate(w.(singles := w.singles[p := e]), used + {e})
  {
  }

  ghost predicate Pending(st: Plan) {
    forall m :: m in st.remains ==> m.NotDetermined()
  }

  method ClassifyEntry(e: Entry, w: Work, ghost st: Plan, ghost used: set<Entry>) returns (ok: bool, w': Work)
    requires Shows(w, st) && Separate(w, used) && e !in used && e.Value().Valid()
    ensures ok <==> ClassifyOne(e.Value(), st).Some?
    ensures ok ==> Shows(w', ClassifyOne(e.Value(), st).value) && Separate(w', used + {e})
  {
    var m := e.Value();
    if m.NotDetermined() {
      ValuesAppend(w.remains, e);
      SeparateRemains(w, used, e);
      return true, w.(remains := w.remains + [e]);
    }
    var occupy;
    ok, occupy := Claim(m.host, w.occupy);
    if !ok {
      return false, w;
    }
    w' := w.(occupy := occupy);
    if m.IsRange() {
      ValuesAppend(w.results, e);
      SeparateResults(w', used, e);
      w' := w'.(results := w.results + [e]);
    } else {
      SeparateSingles(w', used, m.host.start, e);
      w' := w'.(singles := w.singles[m.host.start := e], order := w.order + [m.host.start]);
    }
  }

  ghost predicate Distinct(es: seq<Entry>) {
    forall i, j :: 0 <= i < j < |es| ==> es[i] != es[j]
  }

  lemma ClassifyFrom(vals: seq<Mapping>, i: nat, st: Plan)
    requires i < |vals| && Pending(st)
    ensures var next := ClassifyOne(vals[i], st);
            Classify(vals[i..], st) == if next.None? then None else Classify(vals[i + 1..], next.value)
    ensures ClassifyOne(vals[i], st).Some? ==> Pending(ClassifyOne(vals[i], st).value)
  {
    assert vals[i..][0] == vals[i] && vals[i..][1..] == vals[i + 1..];
  }

  lemma SeparateMore(w: Work, used: set<Entry>, more: set<Entry>)
    requires Separate(w, used) && used <= more
    ensures Separate(w, more)
  {
  }

  /** The first loop. */
  method ClassifyAll(pms: seq<Entry>, ghost vals: seq<Mapping>) returns (ok: bool, w: Work)
    requires Distinct(pms) && vals == Values(pms) && forall i :: 0 <= i < |vals| ==> vals[i].Valid()
    ensures ok <==> Classify(vals, START).Some?
    ensures ok ==> var st := Classify(vals, START).value;
                   Shows(w, st) && Separate(w, set e | e in pms) && Pending(st)
  {
    w := Work({}, [], map[], [], []);
    ghost var st, used := START, {};
    var i := 0;
    while i < |pms|
      invariant i <= |pms|
      invariant Shows(w, st) && Separate(w, used) && Pending(st)
      invariant used <= (set e | e in pms) && forall j :: i <= j < |pms| ==> pms[j] !in used
      invariant Classify(vals[i..], st) == Classify(vals, START)
    {
      ClassifyFrom(vals, i, st);
      ok, w := ClassifyEntry(pms[i], w, st, used);
      if !ok {
        return;
      }
      st, used := ClassifyOne(vals[i], st).value, used + {pms[i]};
      i := i + 1;
    }
    SeparateMore(w, used, set e | e in pms);
    ok := true;
  }

  /** Gives an undetermined mapping the first free port of its range. */
  method Place(e: Entry, occupy: set<int>) returns (ok: bool, occupy': set<int>, p: nat)
    requires e.Value().NotDetermined()
    modifies e
    ensures ok <==> FirstFree(old(e.host), occupy).Some?
    ensures ok ==> FirstFree(old(e.host), occupy) == Some(p) && occupy' == occupy + {p as int}
    ensures ok ==> e.Value() == Settled(old(e.Value()), p)
  {
    occupy', p := occupy, e.host.start;
    var end := e.host.end;
    while p <= end
      invariant e.Value() == old(e.Value()) && occupy' == occupy && p >= old(e.host.start)
      invariant FirstFree(Range(p, end), occupy) == FirstFree(old(e.host), occupy)
      decreases end + 1 - p
    {
      if p !in occupy' {
        e.host := Range(p, p);
        occupy' := occupy' + {p as int};
        break;
      }
      p := p + 1;
    }
    ok := !e.Value().NotDetermined();
  }

  /** Each single has its own object, none of them a result. */
  ghost predicate Own(singles: map<int, Entry>, results: seq<Entry>, used: set<Entry>) {
    && (forall p :: p in singles ==> singles[p] in used && singles[p] !in results)
    && (forall p, q :: p in singles && q in singles && p != q ==> singles[p] != singles[q])
  }

  /** No single is one of the mappings still to be placed. */
  ghost predicate Clear(singles: map<int, Entry>, remains: seq<Entry>, k: nat) {
    forall p, j :: p in singles && k <= j < |remains| ==> singles[p] != remains[j]
  }

  lemma AllocateFrom(rem: seq<Mapping>, k: nat, occupy: set<int>, index: map<int, Mapping>, order: seq<int>)
    requires k < |rem|
    ensures var p := FirstFree(rem[k].host, occupy);
            Allocate(rem[k..], occupy, index, order) ==
            if p.None? then None
            else Allocate(rem[k + 1..], occupy + {p.value as int}, index[p.value as int := Settled(rem[k], p.value)],
                          order + [p.value as int])
  {
    assert rem[k..][0] == rem[k] && rem[k..][1..] == rem[k + 1..];
  }

  /** The second loop, before mapping `k`; `index` holds the values of `singles`. */
  ghost predicate Placing(
      w: Work, st: Plan, used: set<Entry>, k: nat, occupy: set<int>, singles: map<int, Entry>, order: seq<int>,
      index: map<int, Mapping>)
    reads w.results, w.remains, singles.Values
  {
    && k <= |w.remains| == |st.remains|
    && Allocate(st.remains[k..], occupy, index, order) == Allocate(st.remains, st.occupy, st.singles, st.order)
    && Mirrors(singles, index) && Values(w.results) == st.ranges
    && (forall j :: k <= j < |w.remains| ==> w.remains[j].Value() == st.remains[j])
    && Own(singles, w.results, used) && Clear(singles, w.remains, k)
  }

  lemma OwnMore(w: Work, used: set<Entry>, singles: map<int, Entry>, k: nat, p: int)
    requires Separate(w, used) && k < |w.remains| && Own(singles, w.results, used) && Clear(singles, w.remains, k)
    ensures Own(singles[p := w.remains[k]], w.results, used) && Clear(singles[p := w.remains[k]], w.remains, k + 1)
  {
    assert w.remains[k] in w.remains;
  }

  /** One turn of the second loop. */
  method PlaceNext(
      w: Work, ghost st: Plan, ghost used: set<Entry>, k: nat, occupy: set<int>, singles: map<int, Entry>, order: seq<int>,
      ghost index: map<int, Mapping>)
    returns (ok: bool, occupy': set<int>, singles': map<int, Entry>, order': seq<int>, ghost index': map<int, Mapping>)
    requires Separate(w, used) && Pending(st) && k < |w.remains| && Placing(w, st, used, k, occupy, singles, order, index)
    modifies w.remains[k]
    ensures ok ==> Placing(w, st, used, k + 1, occupy', singles', order', index')
    ensures !ok ==> Allocate(st.remains, st.occupy, st.singles, st.order).None?
  {
    AllocateFrom(st.remains, k, occupy, index, order);
    var e, p := w.remains[k], 0;
    assert st.remains[k] in st.remains && e in w.remains;
    ok, occupy', p := Place(e, occupy);
    singles', order', index' := singles[p := e], order + [p], index[p as int := Settled(st.remains[k], p)];
    OwnMore(w, used, singles, k, p);
  }

  /** The second loop. */
  method AllocateAll(w: Work, ghost st: Plan, ghost used: set<Entry>)
    returns (ok: bool, singles: map<int, Entry>, order: seq<int>)
    requires Shows(w, st) && Separate(w, used) && Pending(st)
    modifies w.remains
    ensures var r := Allocate(st.remains, st.occupy, st.singles, st.order);
            && (ok <==> r.Some?)
            && (ok ==> Mirrors(singles, r.value.0) && order == r.value.1)
    ensures ok ==> Own(singles, w.results, used) && Values(w.results) == st.ranges
  {
    var occupy, k := w.occupy, 0;
    singles, order := w.singles, w.order;
    ghost var index := st.singles;
    assert st.remains[0..] == st.remains;
    while k < |w.remains|
      invariant Placing(w, st, used, k, occupy, singles, order, index)
    {
      ok, occupy, singles, order, index := PlaceNext(w, st, used, k, occupy, singles, order, index);
      if !ok {
        return;
      }
      k := k + 1;
    }
    ok := true;
  }

  lemma JoinFrom(last: Mapping, ms: seq<Mapping>, i: nat)
    requires i < |ms|
    ensures Join(last, ms[i..]) ==
            if Continues(last, ms[i]) then Join(Extended(last), ms[i + 1..]) else [last] + Join(ms[i], ms[i + 1..])
  {
    assert ms[i..][0] == ms[i] && ms[i..][1..] == ms[i + 1..];
  }

  /** Makes a run one port longer. */
  method Grow(last: Entry)
    modifies last
    ensures last.Value() == Extended(old(last.Value()))
  {
    last.host := Range(last.host.start, last.host.end + 1);
    last.container := Range(last.container.start, last.container.end + 1);
  }

  /** The run in hand and the singles from `i` on are apart from each other and from the results. */
  ghost predicate Ahead(cs: seq<Entry>, i: nat, last: Entry, out: seq<Entry>) {
    last in cs && last !in out && forall j :: i <= j < |cs| ==> cs[j] != last && cs[j] !in out
  }

  lemma AheadNext(cs: seq<Entry>, i: nat, last: Entry, out: seq<Entry>)
    requires i < |cs| && Ahead(cs, i, last, out) && Distinct(cs)
    ensures Ahead(cs, i + 1, cs[i], out + [last])
  {
  }

  /** The third loop, before single `i`, with the run `last` in hand; `goal` is what comes out in the end. */
  ghost predicate Joining(cs: seq<Entry>, ms: seq<Mapping>, i: nat, last: Entry, out: seq<Entry>, goal: seq<Mapping>)
    reads cs, last, out
  {
    && i <= |cs| == |ms| && Ahead(cs, i, last, out)
    && (forall j :: i <= j < |cs| ==> cs[j].Value() == ms[j])
    && Values(out) + Join(last.Value(), ms[i..]) == goal
  }

  /** One turn of the third loop: the run in hand grows, or is finished. */
  method JoinNext(cur: Entry, last: Entry, out: seq<Entry>, ghost cs: seq<Entry>, ghost ms: seq<Mapping>, ghost i: nat,
                  ghost goal: seq<Mapping>)
    returns (last': Entry, out': seq<Entry>)
    requires Distinct(cs) && i < |cs| && cs[i] == cur && Joining(cs, ms, i, last, out, goal)
    modifies last
    ensures Joining(cs, ms, i + 1, last', out', goal)
  {
    JoinFrom(last.Value(), ms, i);
    if cur.host.start - last.host.end == 1 && cur.container.start - last.container.end == 1 {
      Grow(last);
      last', out' := last, out;
    } else {
      ValuesAppend(out, last);
      SplitOff(Values(out), last.Value(), Join(ms[i], ms[i + 1..]));
      AheadNext(cs, i, last, out);
      last', out' := cur, out + [last];
    }
  }

  /** The third loop: the run in hand grows in place. `cs` are the singles in the order of `ports`. */
  method JoinAll(ports: seq<int>, singles: map<int, Entry>, results: seq<Entry>, ghost cs: seq<Entry>, ghost ms: seq<Mapping>)
    returns (out: seq<Entry>)
    requires |cs| == |ports| && forall i :: 0 <= i < |ports| ==> ports[i] in singles && singles[ports[i]] == cs[i]
    requires Distinct(cs) && ms == Values(cs) && forall i :: 0 <= i < |cs| ==> cs[i] !in results
    modifies cs
    ensures Values(out) == old(Values(results)) + Runs(ms)
  {
    out := results;
    if ports == [] {
      assert Values(results) + [] == Values(results);
      return;
    }
    var last, i := singles[ports[0]], 1;
    ghost var goal := Values(results) + Runs(ms);
    while i < |ports|
      invariant Joining(cs, ms, i, last, out, goal)
    {
      last, out := JoinNext(singles[ports[i]], last, out, cs, ms, i, goal);
      i := i + 1;
    }
    ValuesAppend(out, last);
    out := out + [last];
  }

  lemma SplitOff(done: seq<Mapping>, m: Mapping, rest: seq<Mapping>)
    ensures done + [m] + rest == done + ([m] + rest)
  {
  }

  /** The single ports are listed once each, and only if occupied. */
  ghost predicate Once(order: seq<int>, occupy: set<int>) {
    NoDup(order) && forall p :: p in order ==> p in occupy
  }

  lemma {:induction false} ClassifyOnce(pms: seq<Mapping>, st: Plan)
    requires Once(st.order, st.occupy) && (forall i :: 0 <= i < |pms| ==> pms[i].Valid()) && Classify(pms, st).Some?
    ensures var st' := Classify(pms, st).value; Once(st'.order, st'.occupy)
  {
    if pms == [] {
    } else {
      var m, next := pms[0], ClassifyOne(pms[0], st).value;
      assert m.host.start in Span(m.host);
      ClassifyOnce(pms[1..], next);
    }
  }

  lemma {:induction false} AllocateOnce(rem: seq<Mapping>, occupy: set<int>, singles: map<int, Mapping>, order: seq<int>)
    requires Once(order, occupy) && Allocate(rem, occupy, singles, order).Some?
    ensures NoDup(Allocate(rem, occupy, singles, order).value.1)
  {
    if rem == [] {
    } else {
      var p := FirstFree(rem[0].host, occupy).value;
      AllocateOnce(rem[1..], occupy + {p as int}, singles[p as int := Settled(rem[0], p)], order + [p as int]);
    }
  }

  lemma PortsOnce(vals: seq<Mapping>, st: Plan)
    requires (forall i :: 0 <= i < |vals| ==> vals[i].Valid()) && Classify(vals, START) == Some(st)
    requires Allocate(st.remains, st.occupy, st.singles, st.order).Some?
    ensures var r := Allocate(st.remains, st.occupy, st.singles, st.order).value;
            var ports := SortInts(r.1);
            && NoDup(ports) && (forall i :: 0 <= i < |ports| ==> ports[i] in r.0)
            && Merge(vals) == Some(st.ranges + Runs(Lookup(ports, r.0)))
  {
    ClassifyOnce(vals, START);
    AllocateOnce(st.remains, st.occupy, st.singles, st.order);
    ClassifyKeys(vals, START);
    AllocateKeys(st.remains, st.occupy, st.singles, st.order);
    var order := Allocate(st.remains, st.occupy, st.singles, st.order).value.1;
    SortedNoDup(order);
    SortedIn(order);
    assert forall i :: 0 <= i < |SortInts(order)| ==> SortInts(order)[i] in SortInts(order);
  }

  /** The singles that the ports name, in order. */
  ghost function InOrder(ports: seq<int>, singles: map<int, Entry>): (cs: seq<Entry>)
    requires forall i :: 0 <= i < |ports| ==> ports[i] in singles
    ensures |cs| == |ports| && forall i :: 0 <= i < |ports| ==> singles[ports[i]] == cs[i]
  {
    seq(|ports|, i requires 0 <= i < |ports| => singles[ports[i]])
  }

  lemma InOrderValues(ports: seq<int>, singles: map<int, Entry>, index: map<int, Mapping>)
    requires Mirrors(singles, index) && forall i :: 0 <= i < |ports| ==> ports[i] in index
    ensures Values(InOrder(ports, singles)) == Lookup(ports, index)
  {
    var cs := InOrder(ports, singles);
    forall i | 0 <= i < |ports| ensures Values(cs)[i] == Lookup(ports, index)[i] {
      var p := ports[i];
      assert p in singles && cs[i] == singles[p];
    }
  }

  lemma InOrderOwn(ports: seq<int>, singles: map<int, Entry>, results: seq<Entry>, used: set<Entry>)
    requires Own(singles, results, used) && NoDup(ports) && forall i :: 0 <= i < |ports| ==> ports[i] in singles
    ensures var cs := InOrder(ports, singles);
            Distinct(cs) && forall i :: 0 <= i < |cs| ==> cs[i] in used && cs[i] !in results
  {
    var cs := InOrder(ports, singles);
    forall i | 0 <= i < |cs| ensures cs[i] in used && cs[i] !in results {
      var p := ports[i];
      assert p in singles && cs[i] == singles[p];
    }
    forall i, j | 0 <= i < j < |cs| ensures cs[i] != cs[j] {
      var p, q := ports[i], ports[j];
      assert p in singles && q in singles && cs[i] == singles[p] && cs[j] == singles[q];
    }
  }

  /** Sorting and the third loop. */
  method JoinSorted(order: seq<int>, singles: map<int, Entry>, results: seq<Entry>, ghost index: map<int, Mapping>, ghost used: set<Entry>)
    returns (out: seq<Entry>)
    requires Mirrors(singles, index) && Own(singles, results, used)
    requires NoDup(SortInts(order)) && forall i :: 0 <= i < |SortInts(order)| ==> SortInts(order)[i] in index
    modifies used
    ensures Values(out) == old(Values(results)) + Runs(Lookup(SortInts(order), index))
  {
    var ports := SortInts(order);
    ghost var cs := InOrder(ports, singles);
    InOrderValues(ports, singles, index);
    InOrderOwn(ports, singles, results, used);
    out := JoinAll(ports, singles, results, cs, Values(cs));
  }

  /** `mergeContinuousPorts`: the objects end up holding what `Merge` says of their old values. */
  method MergeContinuousPorts(pms: seq<Entry>) returns (r: Option<seq<Entry>>)
    requires Distinct(pms) && forall e :: e in pms ==> e.Value().Valid()
    modifies pms
    ensures r.Some? <==> Merge(old(Values(pms))).Some?
    ensures r.Some? ==> Values(r.value) == Merge(old(Values(pms))).value
  {
    ghost var vals, used := Values(pms), set e | e in pms;
    var ok, w := ClassifyAll(pms, vals);
    if !ok {
      return None;
    }
    ghost var st := Classify(vals, START).value;
    var singles, order;
    assert forall i :: 0 <= i < |w.remains| ==> w.remains[i] in used;
    ok, singles, order := AllocateAll(w, st, used);
    if !ok {
      return None;
    }
    PortsOnce(vals, st);
    ghost var index := Allocate(st.remains, st.occupy, st.singles, st.order).value.0;
    var out := JoinSorted(order, singles, w.results, index, used);
    return Some(out);
  }
}
