/** The transition rules of a volume's status. */
module VolumeStates {

  datatype VolumeState = Created | Inserting | Inserted | Error

  datatype TransitOutcome = Changed | Ignored | Illegal

  /** `unlockedTransit`: the new status, and whether it changed, was ignored or is illegal. */
  function Transit(status: VolumeState, to: VolumeState, from: set<VolumeState>, ignore: set<VolumeState>)
    : (VolumeState, TransitOutcome)
  {
    if status in ignore || status == to then (status, Ignored)
    else if status in from then (to, Changed)
    else (status, Illegal)
  }

  /** The transition `add` makes before it mounts the volume. */
  function BeginInsert(status: VolumeState): (VolumeState, TransitOutcome) {
    Transit(status, Inserting, {Created}, {Inserting, Inserted})
  }

  /** The transition `setInserted` and `setInsertFail` make. */
  function EndInsert(status: VolumeState, to: VolumeState): (VolumeState, TransitOutcome) {
    Transit(status, to, {Inserting}, {})
  }

  datatype Subscription = Ready | Refused | Queued

  /** What `subscribeInsert` does in each status. */
  function SubscribeOutcome(status: VolumeState): Subscription {
    match status
    case Inserted => Ready
    case Error => Refused
    case Created => Queued
    case Inserting => Queued
  }
}

/** A pod's volume: its status and the wait groups that want to hear of its insertion. */
module Volumes {
  import opened Basics
  import opened VolumeStates
  import opened Sync

  /** `errs` after `n` failures with the same error. */
  ghost function Failed(errs: seq<Err>, err: Err, n: int): seq<Err> {
    if n <= 0 then errs else Failed(errs, err, n - 1) + [err]
  }

  lemma PrefixCount<T>(s: seq<T>, i: nat)
    requires i < |s|
    ensures multiset(s[..i + 1]) == multiset(s[..i]) + multiset{s[i]}
    ensures multiset(s[..i])[s[i]] < multiset(s)[s[i]]
  {
    assert s[..i + 1] == s[..i] + [s[i]];
    assert s == s[..i + 1] + s[i + 1..];
  }

  /** What a subscriber has become once it has failed `n` times. */
  twostate predicate FailedTimes(wg: WaitGroupWithFail, n: nat, err: Err)
    reads wg
  {
    wg.counter == old(wg.counter) - n && wg.errs == Failed(old(wg.errs), err, n)
  }

  /** What the subscribers have become once each has failed as often as `told` counts it. */
  twostate predicate Told(subs: seq<WaitGroupWithFail>, told: multiset<WaitGroupWithFail>, err: Err)
    reads subs
  {
    forall wg :: wg in subs ==> FailedTimes(wg, told[wg], err)
  }

  lemma FailedMore(errs: seq<Err>, err: Err, n: nat)
    ensures Failed(errs, err, n + 1) == Failed(errs, err, n) + [err]
  {
  }

  /** One `Fail` for every subscription. */
  method FailAll(subs: seq<WaitGroupWithFail>, err: Err)
    requires forall wg :: wg in subs ==> multiset(subs)[wg] <= wg.counter
    modifies subs
    ensures Told(subs, multiset(subs), err)
  {
    var i := 0;
    while i < |subs|
      invariant 0 <= i <= |subs| && Told(subs, multiset(subs[..i]), err)
    {
      ghost var hit, told := subs[i], multiset(subs[..i]);
      PrefixCount(subs, i);
      assert FailedTimes(hit, told[hit], err);
      FailedMore(old(hit.errs), err, told[hit]);
      subs[i].Fail(err);
      forall wg | wg in subs ensures FailedTimes(wg, (told + multiset{hit})[wg], err) {
        assert wg != hit ==> FailedTimes(wg, told[wg], err);
      }
      i := i + 1;
    }
    assert subs[..i] == subs;
  }

  class Volume {
    var status: VolumeState
    var insertSubscribers: seq<WaitGroupWithFail>

    constructor ()
      ensures status == Created && insertSubscribers == []
    {
      status, insertSubscribers := Created, [];
    }

    /** No subscriber would be driven below zero by one notification per subscription. */
    ghost predicate Counted()
      reads this, insertSubscribers
    {
      forall wg :: wg in insertSubscribers ==> multiset(insertSubscribers)[wg] <= wg.counter
    }

    method TransitTo(to: VolumeState, from: set<VolumeState>, ignore: set<VolumeState>) returns (outcome: TransitOutcome)
      modifies this`status
      ensures (status, outcome) == Transit(old(status), to, from, ignore)
    {
      if status in ignore || status == to {
        outcome := Ignored;
      } else if status in from {
        status, outcome := to, Changed;
      } else {
        outcome := Illegal;
      }
    }

    /** The subscription is counted exactly when it is queued, and it is queued only while an insertion is due. */
    method SubscribeInsert(wg: WaitGroupWithFail) returns (ok: bool)
      requires Counted() && wg.counter >= 0
      modifies this`insertSubscribers, wg
      ensures Counted() && wg.errs == old(wg.errs)
      ensures ok <==> status != Error
      ensures if SubscribeOutcome(status) == Queued
              then wg.counter == old(wg.counter) + 1 && insertSubscribers == old(insertSubscribers) + [wg]
              else wg.counter == old(wg.counter) && insertSubscribers == old(insertSubscribers)
    {
      if status == Inserted {
        return true;
      } else if status == Error {
        return false;
      }
      ghost var before := multiset(insertSubscribers);
      wg.Add(1);
      insertSubscribers := insertSubscribers + [wg];
      assert multiset(insertSubscribers) == before + multiset{wg};
      assert wg !in old(insertSubscribers) ==> before[wg] == 0;
      return true;
    }

    /** Every subscription is answered by one `Done`, and none is left. */
    method SetInserted()
      requires Counted()
      modifies this, insertSubscribers
      ensures status == EndInsert(old(status), Inserted).0 && insertSubscribers == []
      ensures forall wg :: wg in old(insertSubscribers) ==>
                wg.counter == old(wg.counter) - multiset(old(insertSubscribers))[wg] && wg.errs == old(wg.errs)
    {
      var _ := TransitTo(Inserted, {Inserting}, {});
      var i := 0;
      ghost var subs := insertSubscribers;
      while i < |insertSubscribers|
        invariant 0 <= i <= |subs| && insertSubscribers == subs
        invariant status == EndInsert(old(status), Inserted).0
        invariant forall wg :: wg in subs ==>
                    wg.counter == old(wg.counter) - multiset(subs[..i])[wg] && wg.errs == old(wg.errs)
      {
        PrefixCount(subs, i);
        insertSubscribers[i].Done();
        i := i + 1;
      }
      assert subs[..i] == subs;
      insertSubscribers := [];
    }

    /** Every subscription is answered by one `Fail` with the error, and none is left. */
    method SetInsertFail(err: Err)
      requires Counted()
      modifies this, insertSubscribers
      ensures status == EndInsert(old(status), Error).0 && insertSubscribers == []
      ensures forall wg :: wg in old(insertSubscribers) ==>
                && wg.counter == old(wg.counter) - multiset(old(insertSubscribers))[wg]
                && wg.errs == Failed(old(wg.errs), err, multiset(old(insertSubscribers))[wg])
    {
      var _ := TransitTo(Error, {Inserting}, {});
      FailAll(insertSubscribers, err);
      insertSubscribers := [];
    }

    method Umount(err: Option<Err>)
      modifies this`status
      ensures status == if err.None? then Created else Error
    {
      status := Created;
      if err.Some? { status := Error; }
    }

    /**
     `add`, given what the three external calls return. Only a CREATED volume is mounted
     and inserted; all its subscribers then learn the result. A failed insert leaves the
     volume CREATED again, as if it had never been tried, unless its umount fails too.
     */
    method AddVolume(mount: Option<Err>, insert: Option<Err>, umount: Option<Err>, illegal: Err)
      returns (err: Option<Err>)
      requires Counted()
      modifies this, insertSubscribers
      ensures old(status) != Created ==>
                && status == old(status) && insertSubscribers == old(insertSubscribers)
                && (forall wg :: wg in insertSubscribers ==> wg.counter == old(wg.counter) && wg.errs == old(wg.errs))
                && err == if status == Error then Some(illegal) else None
      ensures old(status) == Created ==>
                && insertSubscribers == []
                && err == (if mount.Some? then mount else insert)
                && status == (if mount.Some? then Error
                              else if insert.None? then Inserted
                              else if umount.None? then Created else Error)
                && forall wg :: wg in old(insertSubscribers) ==>
                     && wg.counter == old(wg.counter) - multiset(old(insertSubscribers))[wg]
                     && wg.errs == match err
                                   case None => old(wg.errs)
                                   case Some(e) => Failed(old(wg.errs), e, multiset(old(insertSubscribers))[wg])
    {
      var outcome := TransitTo(Inserting, {Created}, {Inserting, Inserted});
      if outcome != Changed {
        return if outcome == Illegal then Some(illegal) else None;
      }
      if mount.Some? {
        SetInsertFail(mount.value);
        return mount;
      }
      if insert.Some? {
        Umount(umount);
        SetInsertFail(insert.value);
        return insert;
      }
      SetInserted();
      return None;
    }
  }
}
