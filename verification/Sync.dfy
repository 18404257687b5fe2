/** The two joining tools of the daemon: a wait group that collects errors, and a set of futures. */
module Sync {
  import opened Basics

  type Err(==, !new)

  /** The identifier a future is registered under. */
  type FutureId(==, !new)

  class WaitGroupWithFail {
    var counter: int
    var errs: seq<Err>

    constructor ()
      ensures counter == 0 && errs == []
    {
      counter, errs := 0, [];
    }

    method Add(n: nat)
      modifies this
      ensures counter == old(counter) + n && errs == old(errs)
    {
      counter := counter + n;
    }

    /** A wait group panics when its counter would become negative. */
    method Done()
      requires counter > 0
      modifies this
      ensures counter == old(counter) - 1 && errs == old(errs)
    {
      counter := counter - 1;
    }

    method Fail(err: Err)
      requires counter > 0
      modifies this
      ensures counter == old(counter) - 1 && errs == old(errs) + [err]
    {
      errs := errs + [err];
      Done();
    }
  }

  /** What the select statement of `Wait` can see. */
  datatype Arrival = Result(id: FutureId, err: Option<Err>) | Closed | TimedOut

  /** `Blocked` stands for a wait that no further arrival ends. */
  datatype Outcome = Joined(errs: map<FutureId, Err>) | BrokenChan | ErrTimeout | Blocked

  /** `Wait`, as a function of what is waited for, the errors so far and what arrives. */
  function WaitSpec(waitList: set<FutureId>, errs: map<FutureId, Err>, arrivals: seq<Arrival>): Outcome
    decreases |arrivals|
  {
    if waitList == {} then Joined(errs)
    else if arrivals == [] then Blocked
    else match arrivals[0]
      case Closed => BrokenChan
      case TimedOut => ErrTimeout
      case Result(id, None) => WaitSpec(waitList - {id}, errs, arrivals[1..])
      case Result(id, Some(e)) => WaitSpec(waitList - {id}, errs[id := e], arrivals[1..])
  }

  class FutureSet {
    var waitList: set<FutureId>

    constructor ()
      ensures waitList == {}
    {
      waitList := {};
    }

    /** The loop of `Wait` over the arrivals; what it leaves in `waitList` has not reported. */
    method Wait(arrivals: seq<Arrival>) returns (r: Outcome)
      modifies this
      ensures r == WaitSpec(old(waitList), map[], arrivals)
      ensures r.Joined? ==> waitList == {}
      ensures waitList <= old(waitList)
    {
      var errs := map[];
      var i := 0;
      while waitList != {}
        invariant 0 <= i <= |arrivals|
        invariant waitList <= old(waitList)
        invariant WaitSpec(old(waitList), map[], arrivals) == WaitSpec(waitList, errs, arrivals[i..])
        decreases |arrivals| - i
      {
        if i == |arrivals| { return Blocked; }
        assert arrivals[i..][1..] == arrivals[i + 1..];
        match arrivals[i] {
          case Closed => return BrokenChan;
          case TimedOut => return ErrTimeout;
          case Result(id, err) =>
            waitList := waitList - {id};
            if err.Some? { errs := errs[id := err.value]; }
        }
        i := i + 1;
      }
      return Joined(errs);
    }
  }

  function Reports(order: seq<FutureId>, results: map<FutureId, Option<Err>>): seq<Arrival>
    requires forall id :: id in order ==> id in results
  {
    if order == [] then []
    else
      assert forall id :: id in order[1..] ==> id in order;
      [Result(order[0], results[order[0]])] + Reports(order[1..], results)
  }

  function Failures(ids: set<FutureId>, results: map<FutureId, Option<Err>>): map<FutureId, Err> {
    map id | id in ids && id in results && results[id].Some? :: results[id].value
  }

  lemma FailuresCons(hd: FutureId, rest: set<FutureId>, results: map<FutureId, Option<Err>>, errs: map<FutureId, Err>)
    requires hd !in rest && hd in results
    ensures (if results[hd].Some? then errs[hd := results[hd].value] else errs) + Failures(rest, results)
            == errs + Failures(rest + {hd}, results)
  {
  }

  lemma {:induction false} WaitCollects(
      order: seq<FutureId>, ids: set<FutureId>, results: map<FutureId, Option<Err>>, errs: map<FutureId, Err>)
    requires NoDup(order) && (forall id :: id in order ==> id in results)
    requires forall id :: id in ids <==> id in order
    ensures WaitSpec(ids, errs, Reports(order, results)) == Joined(errs + Failures(ids, results))
    decreases |order|
  {
    if order == [] {
      assert ids == {};
      assert errs + Failures(ids, results) == errs;
    } else {
      var hd, tl := order[0], order[1..];
      var rest := ids - {hd};
      assert hd in order && hd in ids && ids == rest + {hd};
      assert forall id :: id in order <==> id == hd || id in tl;
      var errs' := if results[hd].Some? then errs[hd := results[hd].value] else errs;
      var reports := Reports(order, results);
      assert reports[0] == Result(hd, results[hd]) && reports[1..] == Reports(tl, results);
      assert WaitSpec(ids, errs, reports) == WaitSpec(rest, errs', reports[1..]);
      WaitCollects(tl, rest, results, errs');
      FailuresCons(hd, rest, results, errs);
    }
  }

  /**
   When every task reports once, `Wait` joins all of them and returns the failures of
   exactly the failed tasks, in whatever order the reports arrive.
   */
  lemma WaitAnyOrder(order: seq<FutureId>, results: map<FutureId, Option<Err>>)
    requires NoDup(order) && (set id | id in order) == results.Keys
    ensures WaitSpec(results.Keys, map[], Reports(order, results)) == Joined(Failures(results.Keys, results))
  {
    WaitCollects(order, results.Keys, results, map[]);
    assert map[] + Failures(results.Keys, results) == Failures(results.Keys, results);
  }
}
