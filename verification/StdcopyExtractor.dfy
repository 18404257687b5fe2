/** The demultiplexer as it runs, resumable between calls. */
module StdcopyExtractor {
  import opened Basics
  import opened Stdcopy

  class Extractor {
    var readingHead: bool
    var current: Byte
    var remain: nat
    const headbuf: array<Byte>
    var headlen: nat

    ghost predicate Valid()
      reads this
    {
      && headbuf.Length == PREFIX && headlen < PREFIX
      && (!readingHead ==> headlen == 0 && IsStream(current) && remain > 0)
    }

    /** The state between calls, without what it no longer depends on. */
    ghost function State(): (s: Stdcopy.State)
      requires Valid()
      reads this, headbuf
      ensures Stdcopy.Valid(s)
    {
      if readingHead then Head(headbuf[..headlen]) else Body(current, remain)
    }

    constructor ()
      ensures Valid() && State() == Head([]) && fresh(headbuf)
    {
      readingHead, current, remain, headlen := true, 0, 0, 0;
      headbuf := new Byte[PREFIX](_ => 0);
    }

    /** `copy(headbuf[headlen:], bs)`. */
    method FillHead(bs: seq<Byte>)
      requires headbuf.Length == PREFIX && headlen + |bs| <= PREFIX
      modifies headbuf
      ensures headbuf[..headlen + |bs|] == old(headbuf[..headlen]) + bs
    {
      for i := 0 to |bs|
        invariant headbuf[..headlen + i] == old(headbuf[..headlen]) + bs[..i]
      {
        headbuf[headlen + i] := bs[i];
      }
      assert bs[..|bs|] == bs;
    }

    /**
     Takes a complete header from the front of `orig`. Afterwards the payload is being read,
     even if it is empty.
     */
    method ReadHead(orig: seq<Byte>) returns (rest: seq<Byte>, failed: bool)
      requires Valid() && readingHead && |orig| >= PREFIX - headlen
      modifies this, headbuf
      ensures |rest| == |orig| - (PREFIX - old(headlen))
      ensures failed ==> Valid() && State() == Head([])
      ensures !failed ==> !readingHead && headlen == 0 && IsStream(current)
      ensures Run(old(State()), orig)
              == if failed then Outcome(Head([]), [], [], true) else Run(InBody(current, remain), rest)
    {
      var hrl := PREFIX - headlen;
      ghost var prefix, bs := headbuf[..headlen], orig[..hrl];
      FillHead(orig[..hrl]);
      rest := orig[hrl..];
      HeadFull(prefix, bs, rest);
      assert orig == bs + rest;
      assert headbuf[..] == headbuf[..PREFIX] == prefix + bs;
      headlen := 0;
      if !IsStream(headbuf[0]) {
        assert headbuf[..0] == [];
        return rest, true;
      }
      assert headbuf[4..8] == (prefix + bs)[4..];
      current, remain, readingHead := headbuf[0], Size(headbuf[4..8]), false;
      failed := false;
    }

    /** Takes as much payload as there is. */
    method ReadBody(orig: seq<Byte>) returns (msg: seq<Byte>, rest: seq<Byte>)
      requires headbuf.Length == PREFIX && headlen == 0 && IsStream(current) && !readingHead
      modifies this
      ensures Valid() && current == old(current)
      ensures orig == msg + rest && |msg| == if |orig| < old(remain) then |orig| else old(remain)
      ensures Run(InBody(old(current), old(remain)), orig) == Emit(old(current), msg, Run(State(), rest))
    {
      var ml: nat;
      ghost var was := remain;
      if |orig| < remain {
        remain := remain - |orig|;
        ml := |orig|;
      } else {
        ml := remain;
        readingHead := true;
        remain := 0;
      }
      msg, rest := orig[..ml], orig[ml..];
      assert headbuf[..0] == [];
      assert orig == msg + rest;
      BodyPart(current, was, msg, rest);
    }

    /** `Extract`: one call is one run of the byte-by-byte meaning. */
    method Extract(orig: seq<Byte>) returns (stdout: seq<Byte>, stderr: seq<Byte>, failed: bool)
      requires Valid()
      modifies this, headbuf
      ensures Valid()
      ensures Outcome(State(), stdout, stderr, failed) == Run(old(State()), orig)
    {
      stdout, stderr := [], [];
      var rest := orig;
      ghost var all := Run(State(), orig);
      while rest != []
        invariant Valid()
        invariant all == Then(Outcome(State(), stdout, stderr, false), Run(State(), rest))
        decreases |rest|
      {
        if readingHead {
          var hrl := PREFIX - headlen;
          if |rest| < hrl {
            HeadPartial(headbuf[..headlen], rest);
            FillHead(rest);
            headlen := headlen + |rest|;
            return stdout, stderr, false;
          }
          rest, failed := ReadHead(rest);
          if failed {
            return;
          }
        }
        var msg;
        ghost var before := Outcome(Head([]), stdout, stderr, false);
        msg, rest := ReadBody(rest);
        EmitAfter(before, current, msg, Run(State(), rest));
        if current == STDOUT {
          stdout := stdout + msg;
        } else {
          stderr := stderr + msg;
        }
      }
      failed := false;
    }
  }

  lemma EmitAfter(before: Outcome, current: Byte, msg: seq<Byte>, o: Outcome)
    ensures Then(before, Emit(current, msg, o)) ==
            Then(if current == STDOUT then before.(stdout := before.stdout + msg) else before.(stderr := before.stderr + msg), o)
  {
    assert before.stdout + (msg + o.stdout) == before.stdout + msg + o.stdout;
    assert before.stderr + (msg + o.stderr) == before.stderr + msg + o.stderr;
  }
}
