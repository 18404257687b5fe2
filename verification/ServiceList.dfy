/** The services object of a pod, with the table of its sandbox. */
module ServiceList {
  import opened Basics
  import opened Services
  import opened ServicesTheorems

  lemma PatchFrom(srvs: seq<Service>, k: nat, op: Operation)
    requires k < |srvs|
    ensures var first, rest := Generate(srvs[k], op), Patch(srvs[k + 1..], op);
            Patch(srvs[k..], op) == if first.None? || rest.None? then None else Some(first.value + rest.value)
  {
    assert srvs[k..][0] == srvs[k] && srvs[k..][1..] == srvs[k + 1..];
  }

  /** What has been made of the patch, followed by what the services from `k` on give, is the patch. */
  ghost predicate Patching(srvs: seq<Service>, k: nat, op: Operation, patch: seq<Command>) {
    && k <= |srvs|
    && var rest, all := Patch(srvs[k..], op), Patch(srvs, op);
       (rest.Some? <==> all.Some?) && (all.Some? ==> patch + rest.value == all.value)
  }

  lemma PatchOn(srvs: seq<Service>, k: nat, op: Operation, patch: seq<Command>)
    requires k < |srvs| && Patching(srvs, k, op, patch)
    ensures var cmd := Generate(srvs[k], op);
            if cmd.None? then Patch(srvs, op).None? else Patching(srvs, k + 1, op, patch + cmd.value)
  {
    PatchFrom(srvs, k, op);
    var cmd, rest := Generate(srvs[k], op), Patch(srvs[k + 1..], op);
    if cmd.Some? && rest.Some? {
      assert patch + (cmd.value + rest.value) == patch + cmd.value + rest.value;
    }
  }

  class PodServices {
    var spec: seq<Service>
    var vm: Table

    constructor (spec: seq<Service>)
      ensures this.spec == spec && vm == map[]
    {
      this.spec, vm := spec, map[];
    }

    /** The patch of `commit`, command by command. */
    method MakePatch(srvs: seq<Service>, op: Operation) returns (ok: bool, patch: seq<Command>)
      ensures ok <==> Patch(srvs, op).Some?
      ensures ok ==> patch == Patch(srvs, op).value
    {
      patch := [];
      var k := 0;
      assert srvs[0..] == srvs;
      while k < |srvs|
        invariant Patching(srvs, k, op, patch)
      {
        PatchOn(srvs, k, op, patch);
        var cmd := Generate(srvs[k], op);
        if cmd.None? {
          return false, patch;
        }
        patch := patch + cmd.value;
        k := k + 1;
      }
      ok := true;
    }

    /**
     `commit`: the table changes as the commands say. When they fail the table is put back, if
     that works; when there are none for a service, or the table cannot be listed, nothing
     changes.
     */
    method Commit(srvs: seq<Service>, op: Operation, clear: bool, io: Calls) returns (ok: bool)
      modifies this`vm
      ensures match Send([], srvs, op, if clear then map[] else old(vm), io)
              case Done(_, t) => ok && vm == t
              case Kept => !ok && vm == old(vm)
              case Broken => !ok
    {
      var patch;
      ok, patch := MakePatch(srvs, op);
      if !ok {
        return;
      }
      ghost var bare := patch;
      if clear {
        patch := [Clear] + patch;
        assert patch[1..] == bare;
      }
      ok := CommitToVm(patch, io);
    }

    /** `commitToVm`. */
    method CommitToVm(patch: seq<Command>, io: Calls) returns (ok: bool)
      modifies this`vm
      ensures ok <==> io.listOk && io.applyOk && Exec(patch, old(vm)).Some?
      ensures ok ==> vm == Exec(patch, old(vm)).value
      ensures !ok && (!io.listOk || io.Restores()) ==> vm == old(vm)
    {
      if !io.listOk {
        return false;
      }
      var saved, r := vm, Exec(patch, vm);
      ok := io.applyOk && r.Some?;
      if ok {
        vm := r.value;
      } else {
        vm := *;
        if io.clearOk {
          vm := map[];
          Replay(saved, io);
        }
      }
    }

    /** Puts the listed table back into the empty one; text that is not taken back leaves any table. */
    method Replay(saved: Table, io: Calls)
      modifies this`vm
      ensures io.replayOk ==> vm == saved
    {
      if io.replayOk {
        vm := saved;
      } else {
        vm := *;
      }
    }

    /** `apply`. */
    method Apply(io: Calls) returns (ok: bool)
      requires vm == map[]
      modifies this`vm
      ensures ok <==> io.listOk && io.applyOk && AllGood(spec) && UniqueKeys(spec)
      ensures ok ==> Agree(spec, vm)
      ensures !ok && (!AllWritable(spec) || !io.listOk || io.Restores()) ==> vm == map[]
    {
      ApplyAgrees(spec, io);
      ok := Commit(spec, Adding, false, io);
    }

    /** The specification and the table after an operation on a running pod. */
    twostate predicate Took(op: Op, io: Calls, ok: bool)
      reads this
    {
      match ServicesTheorems.Apply(old(spec), old(vm), op, io)
      case Done(spec', vm') => ok && spec == spec' && vm == vm'
      case Kept => !ok && spec == old(spec) && vm == old(vm)
      case Broken => !ok && spec == old(spec)
    }

    /** The check for equal keys, as written. */
    method HasConflict(exist: set<RawKey>, srvs: seq<Service>) returns (found: bool)
      ensures found <==> Conflict(exist, srvs)
    {
      var seen, k := exist, 0;
      while k < |srvs|
        invariant k <= |srvs| && (Conflict(seen, srvs[k..]) <==> Conflict(exist, srvs))
      {
        assert srvs[k..][0] == srvs[k] && srvs[k..][1..] == srvs[k + 1..];
        if Raw(srvs[k]) in seen {
          return true;
        }
        seen := seen + {Raw(srvs[k])};
        k := k + 1;
      }
      found := false;
    }

    /** `add`: on a running pod an operation of the model; otherwise only the list grows. */
    method Add(srvs: seq<Service>, running: bool, io: Calls) returns (ok: bool)
      modifies this
      ensures running ==> Took(Op.Add(srvs), io, ok)
      ensures running && ok && old(Agree(spec, vm)) ==> Agree(spec, vm)
      ensures !running ==> vm == old(vm) && (ok <==> !Conflict(RawKeys(old(spec)), srvs))
      ensures spec == if ok then old(spec) + srvs else old(spec)
    {
      var found := HasConflict(RawKeys(spec), srvs);
      if found {
        return false;
      }
      ghost var spec0, vm0 := spec, vm;
      if running {
        ok := Commit(srvs, Adding, false, io);
        if !ok {
          return;
        }
      }
      spec := spec + srvs;
      ok := true;
      if running && Agree(spec0, vm0) {
        StepAgrees(spec0, vm0, Op.Add(srvs), io);
      }
    }

    method Partition(keys: set<RawKey>) returns (target: seq<Service>, remain: seq<Service>)
      ensures target == Hit(spec, keys) && remain == Miss(spec, keys)
    {
      target, remain := [], [];
      var k := 0;
      while k < |spec|
        invariant k <= |spec|
        invariant target + Hit(spec[k..], keys) == Hit(spec, keys)
        invariant remain + Miss(spec[k..], keys) == Miss(spec, keys)
      {
        assert spec[k..][0] == spec[k] && spec[k..][1..] == spec[k + 1..];
        if Raw(spec[k]) in keys {
          target := target + [spec[k]];
        } else {
          remain := remain + [spec[k]];
        }
        k := k + 1;
      }
    }

    /** `del`. */
    method Del(srvs: seq<Service>, running: bool, io: Calls) returns (ok: bool)
      modifies this
      ensures running ==> Took(Op.Del(srvs), io, ok)
      ensures running && old(Agree(spec, vm)) ==>
                (ok <==> io.listOk && io.applyOk) && (ok || !io.listOk || io.Restores() ==> Agree(spec, vm))
      ensures !running ==> ok && vm == old(vm)
      ensures spec == if ok then Miss(old(spec), RawKeys(srvs)) else old(spec)
    {
      var target, remain := Partition(RawKeys(srvs));
      ghost var spec0, vm0 := spec, vm;
      if running && Agree(spec0, vm0) {
        DelAgrees(spec0, vm0, srvs, io);
      }
      if running {
        ok := Commit(target, Deleting, false, io);
        if !ok {
          return;
        }
      }
      spec := remain;
      ok := true;
    }

    /** `update`. */
    method Update(srvs: seq<Service>, running: bool, io: Calls) returns (ok: bool)
      modifies this
      ensures running ==> Took(Op.Update(srvs), io, ok)
      ensures running ==> (ok <==> io.listOk && io.applyOk && AllGood(srvs) && UniqueKeys(srvs))
      ensures running && ok ==> Agree(spec, vm)
      ensures !running ==> vm == old(vm) && (ok <==> !Conflict({}, srvs))
      ensures spec == if ok then srvs else old(spec)
    {
      UpdateAgrees(spec, vm, srvs, io);
      var found := HasConflict({}, srvs);
      if found {
        return false;
      }
      if running {
        ok := Commit(srvs, Adding, true, io);
        if !ok {
          return;
        }
      }
      spec := srvs;
      ok := true;
    }
  }
}
