/**
 Copying a terminal's input while watching for the detach keys. The keys count only when each
 arrives in a read of its own; bytes that turn out not to complete them are passed on.
 */
module EscapableCopy {
  import opened Basics
  datatype End = Open | Eof | Fault

  /** What one call of `Read` returns. */
  datatype Read = Read(data: seq<Byte>, end: End)

  /** After the listed reads the source reports its end. */
  function ReadAt(input: seq<Read>, i: nat): Read {
    if i < |input| then input[i] else Read([], Eof)
  }

  const DEFAULT_KEYS: seq<Byte> := [16, 17]

  datatype Result = Ended | Failed | Detached | WriteFailed | ShortWrite

  /** The bytes written, the number of reads made, and how the copy ended. */
  datatype Outcome = Outcome(out: seq<Byte>, used: nat, result: Result)

  predicate IsKey(data: seq<Byte>, key: Byte) {
    |data| == 1 && data[0] == key
  }

  /**
   The copy as an automaton over reads, started at read `i` when the first `m` keys have just
   come one by one.
   */
  function Scan(keys: seq<Byte>, input: seq<Read>, i: nat, m: nat): Outcome
    requires m < |keys|
    decreases |input| - i
  {
    var r := ReadAt(input, i);
    if IsKey(r.data, keys[m]) then
      if m + 1 == |keys| then Outcome([], i + 1, Detached) else Scan(keys, input, i + 1, m + 1)
    else
      var flushed := keys[..m] + r.data;
      match r.end
      case Eof => Outcome(flushed, i + 1, Ended)
      case Fault => Outcome(flushed, i + 1, Failed)
      case Open =>
        var rest := Scan(keys, input, i + 1, 0);
        rest.(out := flushed + rest.out)
  }

  /** The data of reads `i` to `j`. */
  function Data(input: seq<Read>, i: nat, j: nat): seq<Byte>
    decreases j - i
  {
    if i >= j then [] else ReadAt(input, i).data + Data(input, i + 1, j)
  }

  /** Read `i` and those after it bring the keys from `m` on, one at a time. */
  predicate BringsKeys(keys: seq<Byte>, input: seq<Read>, i: nat, m: nat)
    requires m <= |keys|
    decreases |keys| - m
  {
    m == |keys| || (IsKey(ReadAt(input, i).data, keys[m]) && BringsKeys(keys, input, i + 1, m + 1))
  }

  lemma DataCons(input: seq<Read>, i: nat, j: nat)
    requires i < j
    ensures Data(input, i, j) == ReadAt(input, i).data + Data(input, i + 1, j)
  {
  }

  lemma {:induction false} ScanUsed(keys: seq<Byte>, input: seq<Read>, i: nat, m: nat)
    requires m < |keys|
    ensures var o := Scan(keys, input, i, m); o.used > i && (o.result.Detached? ==> o.used + m >= i + |keys|)
    decreases |input| - i
  {
    var r := ReadAt(input, i);
    if IsKey(r.data, keys[m]) {
      if m + 1 < |keys| { ScanUsed(keys, input, i + 1, m + 1); }
    } else if r.end.Open? {
      ScanUsed(keys, input, i + 1, 0);
    }
  }

  /** No byte is lost, added or moved: on a normal or failed end the output is everything read. */
  lemma {:induction false} BytesKept(keys: seq<Byte>, input: seq<Read>, i: nat, m: nat)
    requires m < |keys| && !Scan(keys, input, i, m).result.Detached?
    ensures Scan(keys, input, i, m).out == keys[..m] + Data(input, i, Scan(keys, input, i, m).used)
    decreases |input| - i
  {
    var r, o := ReadAt(input, i), Scan(keys, input, i, m);
    ScanUsed(keys, input, i, m);
    DataCons(input, i, o.used);
    if IsKey(r.data, keys[m]) {
      BytesKept(keys, input, i + 1, m + 1);
      OneMoreKey(keys, m, r.data, Data(input, i + 1, o.used));
    } else if r.end.Open? {
      BytesKept(keys, input, i + 1, 0);
      NextGroup(keys[..m], r.data, Data(input, i + 1, o.used));
    } else {
      NextGroup(keys[..m], r.data, []);
    }
  }

  /**
   The output is everything read but the last reads, which brought the keys one at a time;
   the first case is that the keys already under way are completed.
   */
  ghost predicate KeptToKeys(keys: seq<Byte>, input: seq<Read>, i: nat, m: nat, o: Outcome)
    requires m < |keys|
  {
    if o.used + m == i + |keys| then o.out == [] && BringsKeys(keys, input, i, m)
    else
      && o.used >= i + |keys|
      && o.out == keys[..m] + Data(input, i, o.used - |keys|)
      && BringsKeys(keys, input, o.used - |keys|, 0)
  }

  lemma KeptBeforeKey(keys: seq<Byte>, input: seq<Read>, i: nat, m: nat, o: Outcome)
    requires m + 1 < |keys| && IsKey(ReadAt(input, i).data, keys[m]) && KeptToKeys(keys, input, i + 1, m + 1, o)
    ensures KeptToKeys(keys, input, i, m, o)
  {
    if o.used + m != i + |keys| {
      DataCons(input, i, o.used - |keys|);
      OneMoreKey(keys, m, ReadAt(input, i).data, Data(input, i + 1, o.used - |keys|));
    }
  }

  lemma KeptBeforeBreak(keys: seq<Byte>, input: seq<Read>, i: nat, m: nat, o: Outcome)
    requires m < |keys| && KeptToKeys(keys, input, i + 1, 0, o) && o.used >= i + 1 + |keys|
    ensures KeptToKeys(keys, input, i, m, o.(out := keys[..m] + ReadAt(input, i).data + o.out))
  {
    NextGroup(keys[..m], ReadAt(input, i).data, Data(input, i + 1, o.used - |keys|));
    DataCons(input, i, o.used - |keys|);
  }

  lemma {:induction false} BytesKeptOnDetach(keys: seq<Byte>, input: seq<Read>, i: nat, m: nat)
    requires m < |keys| && Scan(keys, input, i, m).result.Detached?
    ensures KeptToKeys(keys, input, i, m, Scan(keys, input, i, m))
    decreases |input| - i
  {
    if !IsKey(ReadAt(input, i).data, keys[m]) {
      BytesKeptOnDetach(keys, input, i + 1, 0);
      ScanUsed(keys, input, i + 1, 0);
      KeptBeforeBreak(keys, input, i, m, Scan(keys, input, i + 1, 0));
    } else if m + 1 < |keys| {
      BytesKeptOnDetach(keys, input, i + 1, m + 1);
      KeptBeforeKey(keys, input, i, m, Scan(keys, input, i + 1, m + 1));
    }
  }

  lemma OneMoreKey(keys: seq<Byte>, m: nat, data: seq<Byte>, rest: seq<Byte>)
    requires m < |keys| && IsKey(data, keys[m])
    ensures keys[..m + 1] + rest == keys[..m] + (data + rest)
  {
    assert data == [keys[m]] && keys[..m + 1] == keys[..m] + [keys[m]];
  }

  lemma NextGroup(held: seq<Byte>, data: seq<Byte>, rest: seq<Byte>)
    ensures held + data + rest == held + (data + rest)
    ensures [] + rest == rest && data + [] == data
  {
  }

  /** The copy detaches at once, with nothing passed on, exactly when the keys still missing come one at a time. */
  lemma {:induction false} DetachIff(keys: seq<Byte>, input: seq<Read>, i: nat, m: nat)
    requires m < |keys|
    ensures Scan(keys, input, i, m) == Outcome([], i + |keys| - m, Detached) <==> BringsKeys(keys, input, i, m)
    decreases |keys| - m
  {
    if Scan(keys, input, i, m) == Outcome([], i + |keys| - m, Detached) {
      BytesKeptOnDetach(keys, input, i, m);
    } else if m + 1 < |keys| {
      DetachIff(keys, input, i + 1, m + 1);
    }
  }

  // ---- which inputs detach ----

  /** From read `i` on, `m` keys come one at a time, and then an open read that is not the next key. */
  ghost predicate Group(keys: seq<Byte>, input: seq<Read>, i: nat, m: nat) {
    && m < |keys|
    && (forall t: nat {:trigger keys[t]} :: t < m ==> IsKey(ReadAt(input, i + t).data, keys[t]))
    && !IsKey(ReadAt(input, i + m).data, keys[m]) && ReadAt(input, i + m).end.Open?
  }

  /** The reads from `i` up to `j` split into such groups. */
  ghost predicate Restart(keys: seq<Byte>, input: seq<Read>, i: nat, j: nat)
    decreases j - i
  {
    i == j || exists m: nat :: i + m < j && Group(keys, input, i, m) && Restart(keys, input, i + m + 1, j)
  }

  lemma {:induction false} ScanKeys(keys: seq<Byte>, input: seq<Read>, i: nat, m: nat, n: nat)
    requires m <= n < |keys|
    requires forall t: nat {:trigger keys[t]} :: m <= t < n ==> IsKey(ReadAt(input, i + t).data, keys[t])
    ensures Scan(keys, input, i + m, m) == Scan(keys, input, i + n, n)
    decreases n - m
  {
    if m >= n {
    } else {
      assert IsKey(ReadAt(input, i + m).data, keys[m]);
      ScanKeys(keys, input, i, m + 1, n);
    }
  }

  /** A group is passed on, and matching starts over behind it. */
  lemma GroupPasses(keys: seq<Byte>, input: seq<Read>, i: nat, m: nat)
    requires Group(keys, input, i, m)
    ensures Scan(keys, input, i, 0).result == Scan(keys, input, i + m + 1, 0).result && i < |input|
  {
    ScanKeys(keys, input, i, 0, m);
    if m > 0 { assert IsKey(ReadAt(input, i + 0).data, keys[0]); }
  }

  /** Where reads from `i` on, having brought `m` keys, stop bringing them. */
  lemma {:induction false} BreakOff(keys: seq<Byte>, input: seq<Read>, i: nat, m: nat) returns (n: nat)
    requires m < |keys| && !BringsKeys(keys, input, i + m, m)
    requires forall t: nat {:trigger keys[t]} :: t < m ==> IsKey(ReadAt(input, i + t).data, keys[t])
    ensures m <= n < |keys| && !IsKey(ReadAt(input, i + n).data, keys[n])
    ensures forall t: nat {:trigger keys[t]} :: t < n ==> IsKey(ReadAt(input, i + t).data, keys[t])
    decreases |keys| - m
  {
    if IsKey(ReadAt(input, i + m).data, keys[m]) {
      n := BreakOff(keys, input, i, m + 1);
    } else {
      n := m;
    }
  }

  lemma {:induction false} DetachesFrom(keys: seq<Byte>, input: seq<Read>, i: nat) returns (j: nat)
    requires keys != [] && Scan(keys, input, i, 0).result.Detached?
    ensures i <= j && Restart(keys, input, i, j) && BringsKeys(keys, input, j, 0)
    decreases |input| - i
  {
    if BringsKeys(keys, input, i, 0) {
      j := i;
    } else {
      var m := BreakOff(keys, input, i, 0);
      ScanKeys(keys, input, i, 0, m);
      assert Group(keys, input, i, m);
      GroupPasses(keys, input, i, m);
      j := DetachesFrom(keys, input, i + m + 1);
      assert i + m < j && Restart(keys, input, i + m + 1, j);
    }
  }

  lemma {:induction false} RestartDetaches(keys: seq<Byte>, input: seq<Read>, i: nat, j: nat)
    requires keys != [] && i <= j && Restart(keys, input, i, j) && BringsKeys(keys, input, j, 0)
    ensures Scan(keys, input, i, 0).result.Detached?
    decreases j - i
  {
    if i == j {
      DetachIff(keys, input, i, 0);
    } else {
      var m: nat :| i + m < j && Group(keys, input, i, m) && Restart(keys, input, i + m + 1, j);
      GroupPasses(keys, input, i, m);
      RestartDetaches(keys, input, i + m + 1, j);
    }
  }

  /**
   The copy detaches exactly when the keys come one at a time at a point where matching has
   started over: behind groups of reads that each begin like the keys and then break off.
   */
  lemma CopyDetachesIff(keys: seq<Byte>, input: seq<Read>)
    requires keys != []
    ensures Scan(keys, input, 0, 0).result.Detached?
            <==> exists j: nat :: Restart(keys, input, 0, j) && BringsKeys(keys, input, j, 0)
  {
    if Scan(keys, input, 0, 0).result.Detached? {
      var j := DetachesFrom(keys, input, 0);
      assert Restart(keys, input, 0, j) && BringsKeys(keys, input, j, 0);
    }
    forall j: nat | Restart(keys, input, 0, j) && BringsKeys(keys, input, j, 0)
      ensures Scan(keys, input, 0, 0).result.Detached?
    {
      RestartDetaches(keys, input, 0, j);
    }
  }

  /** A read that breaks off the keys is passed on even if it is the first key: matching does not start over with it. */
  lemma RepeatedKeyIsMissed(a: Byte, b: Byte)
    requires a != b
    ensures var input := [Read([a], Open), Read([a], Open), Read([b], Open)];
            BringsKeys([a, b], input, 1, 0) && Scan([a, b], input, 0, 0) == Outcome([a, a, b], 4, Ended)
  {
    var input, keys := [Read([a], Open), Read([a], Open), Read([b], Open)], [a, b];
    assert BringsKeys(keys, input, 3, 2) && BringsKeys(keys, input, 2, 1);
    assert Scan(keys, input, 3, 0) == Outcome([], 4, Ended);
    assert Scan(keys, input, 2, 0) == Outcome([b], 4, Ended);
    assert keys[..1] + [a] == [a, a];
    assert Scan(keys, input, 1, 1) == Outcome([a, a] + [b], 4, Ended);
  }

  // ---- the copy as it runs ----

  /** What one call of `Write` returns; it never takes more than it is given. */
  datatype Wrote = Wrote(n: nat, failed: bool)

  /** After the listed writes the destination takes all it is given. */
  function WriteAt(writes: seq<Wrote>, j: nat, length: nat): (w: Wrote)
    ensures w.n <= length
  {
    if j >= |writes| then Wrote(length, false)
    else if writes[j].n <= length then writes[j]
    else Wrote(length, writes[j].failed)
  }

  predicate WriteEnds(r: Result) {
    r.WriteFailed? || r.ShortWrite?
  }

  /** What the copy makes of bytes `held` that end with read `r`, when `j` writes have been made. */
  function Flush(keys: seq<Byte>, input: seq<Read>, writes: seq<Wrote>, held: seq<Byte>, r: Read, next: nat, j: nat): Outcome
    requires keys != [] && next <= |input| + 1 && (r.end.Open? ==> next <= |input|)
    decreases |input| + 1 - next, 1
  {
    var w := WriteAt(writes, j, |held|);
    if held != [] && w.failed then Outcome(held[..w.n], next, WriteFailed)
    else if held != [] && w.n != |held| then Outcome(held[..w.n], next, ShortWrite)
    else
      match r.end
      case Eof => Outcome(held, next, Ended)
      case Fault => Outcome(held, next, Failed)
      case Open =>
        var rest := CopyTo(keys, input, writes, next, 0, if held != [] then j + 1 else j);
        rest.(out := held + rest.out)
  }

  /** The copy with a destination that may fail or take less than it is given. */
  function CopyTo(keys: seq<Byte>, input: seq<Read>, writes: seq<Wrote>, i: nat, m: nat, j: nat): Outcome
    requires m < |keys| && i <= |input|
    decreases |input| + 1 - i, 0
  {
    var r := ReadAt(input, i);
    if IsKey(r.data, keys[m]) then
      if m + 1 == |keys| then Outcome([], i + 1, Detached) else CopyTo(keys, input, writes, i + 1, m + 1, j)
    else Flush(keys, input, writes, keys[..m] + r.data, r, i + 1, j)
  }

  /** A destination that fails or falls short cuts the output off; any other sees the whole of it. */
  lemma {:induction false} WritesCutOff(keys: seq<Byte>, input: seq<Read>, writes: seq<Wrote>, i: nat, m: nat, j: nat)
    requires m < |keys| && i <= |input|
    ensures var o, all := CopyTo(keys, input, writes, i, m, j), Scan(keys, input, i, m);
            o.out <= all.out && (!WriteEnds(o.result) ==> o == all)
    decreases |input| - i
  {
    var r := ReadAt(input, i);
    var held := keys[..m] + r.data;
    if IsKey(r.data, keys[m]) {
      if m + 1 < |keys| { WritesCutOff(keys, input, writes, i + 1, m + 1, j); }
    } else if r.end.Open? {
      WritesCutOff(keys, input, writes, i + 1, 0, if held != [] then j + 1 else j);
    }
  }

  // ---- what a failing destination gets ----

  /** What the copy gives to `Write`, call by call, as long as none fails. */
  function Pieces(keys: seq<Byte>, input: seq<Read>, i: nat, m: nat): seq<seq<Byte>>
    requires m < |keys|
    decreases |input| - i
  {
    var r := ReadAt(input, i);
    if IsKey(r.data, keys[m]) then if m + 1 == |keys| then [] else Pieces(keys, input, i + 1, m + 1)
    else
      var held := keys[..m] + r.data;
      (if held == [] then [] else [held]) + if r.end.Open? then Pieces(keys, input, i + 1, 0) else []
  }

  function Joined(pieces: seq<seq<Byte>>): seq<Byte> {
    if pieces == [] then [] else pieces[0] + Joined(pieces[1..])
  }

  predicate Full(w: Wrote, length: nat) {
    !w.failed && w.n == length
  }

  /** What the destination has, and how the copy ends, when piece `k` is the first not written in full. */
  ghost predicate CutAt(pieces: seq<seq<Byte>>, writes: seq<Wrote>, j: nat, k: nat, out: seq<Byte>, result: Result) {
    && k < |pieces|
    && (forall t: nat :: t < k ==> Full(WriteAt(writes, j + t, |pieces[t]|), |pieces[t]|))
    && var w := WriteAt(writes, j + k, |pieces[k]|);
       && !Full(w, |pieces[k]|)
       && out == Joined(pieces[..k]) + pieces[k][..w.n]
       && result == if w.failed then WriteFailed else ShortWrite
  }

  ghost predicate AllFull(pieces: seq<seq<Byte>>, writes: seq<Wrote>, j: nat) {
    forall t: nat :: t < |pieces| ==> Full(WriteAt(writes, j + t, |pieces[t]|), |pieces[t]|)
  }

  lemma CutLater(p: seq<Byte>, pieces: seq<seq<Byte>>, writes: seq<Wrote>, j: nat, k: nat, out: seq<Byte>, result: Result)
    requires CutAt(pieces, writes, j + 1, k, out, result) && Full(WriteAt(writes, j, |p|), |p|)
    ensures CutAt([p] + pieces, writes, j, k + 1, p + out, result)
  {
    var all := [p] + pieces;
    assert all[..k + 1][0] == p && all[..k + 1][1..] == pieces[..k];
    assert p + (Joined(pieces[..k]) + pieces[k][..WriteAt(writes, j + 1 + k, |pieces[k]|).n])
        == Joined(all[..k + 1]) + pieces[k][..WriteAt(writes, j + 1 + k, |pieces[k]|).n];
    forall t: nat | t < k + 1 ensures Full(WriteAt(writes, j + t, |all[t]|), |all[t]|) {
      if t > 0 { assert Full(WriteAt(writes, j + 1 + (t - 1), |pieces[t - 1]|), |pieces[t - 1]|); }
    }
  }

  lemma AllFullFrom(p: seq<Byte>, pieces: seq<seq<Byte>>, writes: seq<Wrote>, j: nat)
    requires AllFull(pieces, writes, j + 1) && Full(WriteAt(writes, j, |p|), |p|)
    ensures AllFull([p] + pieces, writes, j)
  {
    var all := [p] + pieces;
    forall t: nat | t < |all| ensures Full(WriteAt(writes, j + t, |all[t]|), |all[t]|) {
      if t > 0 { assert Full(WriteAt(writes, j + 1 + (t - 1), |pieces[t - 1]|), |pieces[t - 1]|); }
    }
  }

  ghost predicate Decided(pieces: seq<seq<Byte>>, writes: seq<Wrote>, j: nat, k: nat, o: Outcome, all: Outcome) {
    if WriteEnds(o.result) then CutAt(pieces, writes, j, k, o.out, o.result) else AllFull(pieces, writes, j) && o == all
  }

  /** One piece that is written, and then the rest. */
  lemma DecidedFrom(p: seq<Byte>, pieces: seq<seq<Byte>>, writes: seq<Wrote>, j: nat, k: nat, o: Outcome, all: Outcome)
    requires Decided(pieces, writes, j + 1, k, o, all) && Full(WriteAt(writes, j, |p|), |p|)
    ensures Decided([p] + pieces, writes, j, k + 1, o.(out := p + o.out), all.(out := p + all.out))
  {
    if WriteEnds(o.result) {
      CutLater(p, pieces, writes, j, k, o.out, o.result);
    } else {
      AllFullFrom(p, pieces, writes, j);
    }
  }

  /** The copy stops at the first piece that is not written in full; if all are, it goes on to its own end. */
  lemma {:induction false} WritesDecide(keys: seq<Byte>, input: seq<Read>, writes: seq<Wrote>, i: nat, m: nat, j: nat)
    returns (k: nat)
    requires m < |keys| && i <= |input|
    ensures Decided(Pieces(keys, input, i, m), writes, j, k, CopyTo(keys, input, writes, i, m, j), Scan(keys, input, i, m))
    decreases |input| - i
  {
    var r := ReadAt(input, i);
    var held := keys[..m] + r.data;
    k := 0;
    if IsKey(r.data, keys[m]) {
      if m + 1 < |keys| { k := WritesDecide(keys, input, writes, i + 1, m + 1, j); }
    } else if held == [] {
      if r.end.Open? { k := WritesDecide(keys, input, writes, i + 1, 0, j); }
      EmptyHeld(keys, input, writes, i, m, j);
    } else if r.end.Open? && Full(WriteAt(writes, j, |held|), |held|) {
      k := WritesDecide(keys, input, writes, i + 1, 0, j + 1);
      NextPiece(keys, input, writes, i, m, j);
      DecidedFrom(held, Pieces(keys, input, i + 1, 0), writes, j, k,
                  CopyTo(keys, input, writes, i + 1, 0, j + 1), Scan(keys, input, i + 1, 0));
      k := k + 1;
    } else {
      LastPiece(keys, input, writes, i, m, j);
    }
  }

  lemma NextPiece(keys: seq<Byte>, input: seq<Read>, writes: seq<Wrote>, i: nat, m: nat, j: nat)
    requires m < |keys| && i < |input| && !IsKey(ReadAt(input, i).data, keys[m]) && ReadAt(input, i).end.Open?
    requires var held := keys[..m] + ReadAt(input, i).data; held != [] && Full(WriteAt(writes, j, |held|), |held|)
    ensures var held := keys[..m] + ReadAt(input, i).data;
            var rest, all := CopyTo(keys, input, writes, i + 1, 0, j + 1), Scan(keys, input, i + 1, 0);
            && CopyTo(keys, input, writes, i, m, j) == rest.(out := held + rest.out)
            && Scan(keys, input, i, m) == all.(out := held + all.out)
            && Pieces(keys, input, i, m) == [held] + Pieces(keys, input, i + 1, 0)
  {
    var r := ReadAt(input, i);
    var held, rest := keys[..m] + r.data, CopyTo(keys, input, writes, i + 1, 0, j + 1);
    assert Flush(keys, input, writes, held, r, i + 1, j) == rest.(out := held + rest.out);
  }

  lemma LastPiece(keys: seq<Byte>, input: seq<Read>, writes: seq<Wrote>, i: nat, m: nat, j: nat)
    requires m < |keys| && i <= |input| && !IsKey(ReadAt(input, i).data, keys[m])
    requires var held := keys[..m] + ReadAt(input, i).data;
             held != [] && !(ReadAt(input, i).end.Open? && Full(WriteAt(writes, j, |held|), |held|))
    ensures Decided(Pieces(keys, input, i, m), writes, j, 0, CopyTo(keys, input, writes, i, m, j), Scan(keys, input, i, m))
  {
    var held, pieces := keys[..m] + ReadAt(input, i).data, Pieces(keys, input, i, m);
    var w := WriteAt(writes, j, |held|);
    var o := CopyTo(keys, input, writes, i, m, j);
    assert o == Flush(keys, input, writes, held, ReadAt(input, i), i + 1, j);
    assert pieces[0] == held && pieces[..0] == [] && [] + held[..w.n] == held[..w.n];
    if Full(w, |held|) {
      assert pieces == [held];
      assert o == Scan(keys, input, i, m);
    } else {
      assert o == Outcome(held[..w.n], i + 1, if w.failed then WriteFailed else ShortWrite);
      assert CutAt(pieces, writes, j, 0, o.out, o.result);
    }
  }

  lemma EmptyHeld(keys: seq<Byte>, input: seq<Read>, writes: seq<Wrote>, i: nat, m: nat, j: nat)
    requires m < |keys| && i <= |input|
    requires !IsKey(ReadAt(input, i).data, keys[m]) && keys[..m] + ReadAt(input, i).data == []
    ensures if ReadAt(input, i).end.Open? then
              && CopyTo(keys, input, writes, i, m, j) == CopyTo(keys, input, writes, i + 1, 0, j)
              && Pieces(keys, input, i, m) == Pieces(keys, input, i + 1, 0)
              && Scan(keys, input, i, m) == Scan(keys, input, i + 1, 0)
            else
              var o := CopyTo(keys, input, writes, i, m, j);
              o == Scan(keys, input, i, m) && !WriteEnds(o.result) && Pieces(keys, input, i, m) == []
  {
    var r := ReadAt(input, i);
    if r.end.Open? {
      var rest := CopyTo(keys, input, writes, i + 1, 0, j);
      assert Flush(keys, input, writes, [], r, i + 1, j) == rest.(out := [] + rest.out);
      assert [] + rest.out == rest.out && [] + Scan(keys, input, i + 1, 0).out == Scan(keys, input, i + 1, 0).out;
      assert [] + Pieces(keys, input, i + 1, 0) == Pieces(keys, input, i + 1, 0);
    } else {
      assert CopyTo(keys, input, writes, i, m, j) == Flush(keys, input, writes, [], r, i + 1, j);
    }
  }

  lemma WholeCopy(keys: seq<Byte>, input: seq<Read>)
    requires keys != []
    ensures var o := Scan(keys, input, 0, 0);
            if !o.result.Detached? then o.out == Data(input, 0, o.used)
            else
              && o.used >= |keys| && o.out == Data(input, 0, o.used - |keys|)
              && BringsKeys(keys, input, o.used - |keys|, 0)
  {
    var o := Scan(keys, input, 0, 0);
    if o.result.Detached? {
      BytesKeptOnDetach(keys, input, 0, 0);
      NextGroup([], [], Data(input, 0, o.used - |keys|));
    } else {
      BytesKept(keys, input, 0, 0);
      NextGroup([], [], Data(input, 0, o.used));
    }
  }

  /** `copyEscapable`. */
  method CopyEscapable(given: seq<Byte>, input: seq<Read>, writes: seq<Wrote>)
    returns (out: seq<Byte>, written: nat, result: Result)
    ensures written == if result.Detached? then 0 else |out|
    ensures var keys := if given == [] then DEFAULT_KEYS else given;
            var o := Scan(keys, input, 0, 0);
            if WriteEnds(result) then
              && out <= o.out
              && exists k: nat :: CutAt(Pieces(keys, input, 0, 0), writes, 0, k, out, result)
            else
              && AllFull(Pieces(keys, input, 0, 0), writes, 0)
              && result == o.result
              && if !result.Detached? then out == Data(input, 0, o.used)
                 else
                   && o.used >= |keys| && out == Data(input, 0, o.used - |keys|)
                   && BringsKeys(keys, input, o.used - |keys|, 0)
  {
    var keys := if given == [] then DEFAULT_KEYS else given;
    WholeCopy(keys, input);
    WritesCutOff(keys, input, writes, 0, 0, 0);
    ghost var k := WritesDecide(keys, input, writes, 0, 0, 0);
    out, written, result := CopyWatching(keys, input, writes);
  }

  /** What is out already, followed by what the rest puts out, is all. */
  ghost predicate Leads(out: seq<Byte>, rest: Outcome, all: Outcome) {
    out + rest.out == all.out && rest.result == all.result
  }

  lemma LeadsOn(out: seq<Byte>, held: seq<Byte>, rest: Outcome, all: Outcome)
    requires Leads(out, rest.(out := held + rest.out), all)
    ensures Leads(out + held, rest, all)
  {
    assert out + (held + rest.out) == out + held + rest.out;
  }

  /** A read without data is not written. */
  lemma EmptyRead(keys: seq<Byte>, input: seq<Read>, writes: seq<Wrote>, i: nat, j: nat)
    requires keys != [] && i <= |input| && ReadAt(input, i).data == []
    ensures CopyTo(keys, input, writes, i, 0, j)
            == match ReadAt(input, i).end
               case Eof => Outcome([], i + 1, Ended)
               case Fault => Outcome([], i + 1, Failed)
               case Open => CopyTo(keys, input, writes, i + 1, 0, j)
  {
    assert keys[..0] + ReadAt(input, i).data == [];
    EmptyHeld(keys, input, writes, i, 0, j);
  }

  /** The copy loop, once the keys are known. */
  method CopyWatching(keys: seq<Byte>, input: seq<Read>, writes: seq<Wrote>)
    returns (out: seq<Byte>, written: nat, result: Result)
    requires keys != []
    ensures out == CopyTo(keys, input, writes, 0, 0, 0).out && result == CopyTo(keys, input, writes, 0, 0, 0).result
    ensures written == if result.Detached? then 0 else |out|
  {
    out, written := [], 0;
    var next: nat, j: nat := 0, 0;
    ghost var all := CopyTo(keys, input, writes, 0, 0, 0);
    while true
      invariant written == |out| && next <= |input|
      invariant Leads(out, CopyTo(keys, input, writes, next, 0, j), all)
      decreases |input| - next
    {
      var r := ReadAt(input, next);
      next := next + 1;
      if |r.data| > 0 {
        var preserved, detached;
        preserved, detached, r, next := Watch(keys, input, writes, r, next, j);
        if detached {
          assert out + [] == out;
          return out, 0, Detached;
        }
        var w := WriteAt(writes, j, |preserved|);
        if r.end.Open? && !w.failed && w.n == |preserved| {
          LeadsOn(out, preserved, CopyTo(keys, input, writes, next, 0, j + 1), all);
        }
        out, written, j := out + preserved[..w.n], written + w.n, j + 1;
        if w.failed {
          return out, written, WriteFailed;
        }
        if w.n != |preserved| {
          return out, written, ShortWrite;
        }
        assert preserved[..w.n] == preserved;
      } else {
        EmptyRead(keys, input, writes, next - 1, j);
        assert out + [] == out;
      }
      if r.end.Eof? {
        return out, written, Ended;
      }
      if r.end.Fault? {
        return out, written, Failed;
      }
    }
  }

  /** Compares reads with the keys, from read `first` on, until one differs or all have come. */
  method Watch(keys: seq<Byte>, input: seq<Read>, writes: seq<Wrote>, first: Read, start: nat, j: nat)
    returns (preserved: seq<Byte>, detached: bool, r: Read, next: nat)
    requires keys != [] && start > 0 && first == ReadAt(input, start - 1) && first.data != []
    ensures start <= next <= |input| + 1 && preserved != [] && (r.end.Open? ==> next <= |input|)
    ensures CopyTo(keys, input, writes, start - 1, 0, j)
            == if detached then Outcome([], next, Detached) else Flush(keys, input, writes, preserved, r, next, j)
  {
    preserved, r, next := [], first, start;
    var i := 0;
    while true
      invariant i < |keys| && next == start + i && next <= |input| + 1 && r == ReadAt(input, next - 1) && preserved == keys[..i]
      invariant i == 0 ==> r.data != []
      invariant CopyTo(keys, input, writes, start - 1, 0, j) == CopyTo(keys, input, writes, next - 1, i, j)
      decreases |keys| - i
    {
      preserved := preserved + r.data;
      if |r.data| != 1 || r.data[0] != keys[i] {
        return preserved, false, r, next;
      }
      if i == |keys| - 1 {
        return preserved, true, r, next;
      }
      r, next, i := ReadAt(input, next), next + 1, i + 1;
    }
  }
}
