/** The table in the sandbox is the one the specification denotes, after any run of operations that succeed. */
module ServicesTheorems {
  import opened Basics
  import opened Services

  // ---- executing commands ----

  lemma {:induction false} ExecAppend(a: seq<Command>, b: seq<Command>, t: Table)
    ensures Exec(a + b, t) == if Exec(a, t).None? then None else Exec(b, Exec(a, t).value)
    decreases |a|
  {
    if a == [] {
      assert a + b == b;
    } else {
      assert (a + b)[1..] == a[1..] + b;
      var next := ExecOne(a[0], t);
      if next.Some? { ExecAppend(a[1..], b, next.value); }
    }
  }

  lemma NoDupCons<T>(x: T, s: seq<T>)
    ensures NoDup([x] + s) <==> x !in s && NoDup(s)
  {
    var all := [x] + s;
    assert forall i :: 0 <= i < |s| ==> all[i + 1] == s[i];
    if NoDup(all) {
      forall i | 0 <= i < |s| ensures s[i] != x { assert all[0] != all[i + 1]; }
      forall i, j | 0 <= i < j < |s| ensures s[i] != s[j] { assert all[i + 1] != all[j + 1]; }
    }
    if x !in s && NoDup(s) {
      forall i, j | 0 <= i < j < |all| ensures all[i] != all[j] {
        assert all[j] == s[j - 1] && (i == 0 || all[i] == s[i - 1]);
      }
    }
  }

  lemma {:induction false} DestsExec(k: Key, hosts: seq<Backend>, t: Table)
    requires k in t
    ensures Exec(Dests(k, hosts), t)
            == if NoDup(hosts) && Elems(hosts) !! t[k] then Some(t[k := t[k] + Elems(hosts)]) else None
    decreases |hosts|
  {
    if hosts == [] {
      assert Elems(hosts) == {} && t[k] + {} == t[k] && t == t[k := t[k]];
    } else {
      var h, rest := hosts[0], hosts[1..];
      assert hosts == [h] + rest;
      NoDupCons(h, rest);
      assert Elems(hosts) == {h} + Elems(rest);
      assert Dests(k, hosts)[1..] == Dests(k, rest);
      if h !in t[k] {
        DestsExec(k, rest, t[k := t[k] + {h}]);
        DestsStep(k, h, rest, t);
      }
    }
  }

  lemma DestsStep(k: Key, h: Backend, rest: seq<Backend>, t: Table)
    requires k in t && h !in t[k]
    ensures Elems(rest) !! t[k] + {h} <==> Elems(rest) !! t[k] && h !in rest
    ensures t[k := t[k] + {h}][k := t[k] + {h} + Elems(rest)] == t[k := t[k] + ({h} + Elems(rest))]
  {
    assert t[k] + {h} + Elems(rest) == t[k] + ({h} + Elems(rest));
  }

  lemma ServiceExec(s: Service, t: Table)
    requires Generate(s, Adding).Some?
    ensures var r := Exec(Generate(s, Adding).value, t);
            && (r.Some? <==> KeyOf(s) !in t && NoDup(s.hosts))
            && (r.Some? ==> r.value == t[KeyOf(s) := Hosts(s)])
  {
    var k := KeyOf(s);
    var cs := [AddService(k)] + Dests(k, s.hosts);
    assert cs[1..] == Dests(k, s.hosts);
    if k !in t {
      DestsExec(k, s.hosts, t[k := {}]);
      assert {} + Elems(s.hosts) == Hosts(s);
      assert t[k := {}][k := Hosts(s)] == t[k := Hosts(s)];
    }
  }

  lemma {:induction false} PatchMade(srvs: seq<Service>, op: Operation)
    ensures Patch(srvs, op).Some? <==> forall s :: s in srvs ==> Generate(s, op).Some?
  {
    if srvs == [] {
    } else {
      PatchMade(srvs[1..], op);
      assert srvs == [srvs[0]] + srvs[1..];
      assert forall s :: s in srvs <==> s == srvs[0] || s in srvs[1..];
    }
  }

  // ---- specifications and tables ----

  ghost predicate HasKey(spec: seq<Service>, k: Key) {
    exists s :: s in spec && KeyOf(s) == k
  }

  lemma HasKeyCons(s: Service, rest: seq<Service>, k: Key)
    ensures HasKey([s] + rest, k) <==> KeyOf(s) == k || HasKey(rest, k)
  {
    assert forall x :: x in [s] + rest <==> x == s || x in rest;
    if KeyOf(s) == k { assert s in [s] + rest; }
  }

  lemma {:induction false} DenotedKeys(spec: seq<Service>, k: Key)
    ensures k in Denoted(spec) <==> HasKey(spec, k)
  {
    if spec == [] {
    } else {
      assert spec == [spec[0]] + spec[1..];
      HasKeyCons(spec[0], spec[1..], k);
      DenotedKeys(spec[1..], k);
    }
  }

  lemma UniqueCons(s: Service, rest: seq<Service>)
    ensures UniqueKeys([s] + rest) <==> !HasKey(rest, KeyOf(s)) && UniqueKeys(rest)
  {
    var all := [s] + rest;
    assert forall i :: 0 <= i < |rest| ==> all[i + 1] == rest[i];
    if UniqueKeys(all) {
      forall x | x in rest ensures KeyOf(x) != KeyOf(s) {
        var i :| 0 <= i < |rest| && rest[i] == x;
        assert KeyOf(all[0]) != KeyOf(all[i + 1]);
      }
      forall i, j | 0 <= i < j < |rest| ensures KeyOf(rest[i]) != KeyOf(rest[j]) {
        assert KeyOf(all[i + 1]) != KeyOf(all[j + 1]);
      }
    }
    if !HasKey(rest, KeyOf(s)) && UniqueKeys(rest) {
      forall i, j | 0 <= i < j < |all| ensures KeyOf(all[i]) != KeyOf(all[j]) {
        assert all[j] == rest[j - 1] && rest[j - 1] in rest && (i == 0 || all[i] == rest[i - 1]);
      }
    }
  }

  ghost predicate AllGood(spec: seq<Service>) {
    forall s :: s in spec ==> Good(s)
  }

  ghost predicate NewTo(spec: seq<Service>, t: Table) {
    forall s :: s in spec ==> KeyOf(s) !in t
  }

  lemma AddFirst(s: Service, rest: seq<Service>, t: Table)
    ensures Committed([s] + rest, Adding, t)
            == if Generate(s, Adding).None? || KeyOf(s) in t || !NoDup(s.hosts) then None
               else Committed(rest, Adding, t[KeyOf(s) := Hosts(s)])
  {
    assert ([s] + rest)[1..] == rest;
    var first, more := Generate(s, Adding), Patch(rest, Adding);
    if first.Some? && more.Some? {
      ExecAppend(first.value, more.value, t);
      ServiceExec(s, t);
    }
  }

  /** The patch that adds services applies exactly when they are good, their keys differ and are new; it adds what they denote. */
  lemma {:induction false} AddExec(srvs: seq<Service>, t: Table)
    ensures Committed(srvs, Adding, t)
            == if AllGood(srvs) && UniqueKeys(srvs) && NewTo(srvs, t) then Some(t + Denoted(srvs)) else None
    decreases |srvs|
  {
    if srvs == [] {
      assert t + map[] == t;
    } else {
      var s, rest := srvs[0], srvs[1..];
      assert srvs == [s] + rest;
      AddFirst(s, rest, t);
      AddExec(rest, t[KeyOf(s) := Hosts(s)]);
      AddStep(s, rest, t);
    }
  }

  lemma AddStep(s: Service, rest: seq<Service>, t: Table)
    ensures var srvs, t1 := [s] + rest, t[KeyOf(s) := Hosts(s)];
            && (AllGood(srvs) <==> Good(s) && AllGood(rest))
            && (NewTo(srvs, t) <==> KeyOf(s) !in t && NewTo(rest, t))
            && (NewTo(rest, t1) && UniqueKeys(rest) <==> NewTo(rest, t) && UniqueKeys(srvs))
            && (UniqueKeys(srvs) ==> t1 + Denoted(rest) == t + Denoted(srvs))
  {
    var srvs, t1 := [s] + rest, t[KeyOf(s) := Hosts(s)];
    assert srvs[1..] == rest && forall x :: x in srvs <==> x == s || x in rest;
    assert s in srvs;
    UniqueCons(s, rest);
    NewAfter(s, rest, t);
    if UniqueKeys(srvs) {
      DenotedKeys(rest, KeyOf(s));
      assert t1 + Denoted(rest) == t + Denoted(srvs);
    }
  }

  lemma NewAfter(s: Service, rest: seq<Service>, t: Table)
    ensures NewTo(rest, t[KeyOf(s) := Hosts(s)]) <==> NewTo(rest, t) && !HasKey(rest, KeyOf(s))
  {
  }

  ghost predicate Present(spec: seq<Service>, t: Table) {
    forall s :: s in spec ==> Supported(s) && KeyOf(s) in t
  }

  /** The patch that deletes services with different keys, all present, applies and takes out these keys. */
  lemma {:induction false} DelExec(srvs: seq<Service>, t: Table)
    requires Present(srvs, t) && UniqueKeys(srvs)
    ensures Committed(srvs, Deleting, t) == Some(t - Denoted(srvs).Keys)
    decreases |srvs|
  {
    if srvs == [] {
      assert Denoted(srvs).Keys == {} && t - {} == t;
    } else {
      var s, rest := srvs[0], srvs[1..];
      assert srvs == [s] + rest && s in srvs;
      assert forall x :: x in rest ==> x in srvs;
      UniqueCons(s, rest);
      PatchMade(rest, Deleting);
      DelFirst(s, rest, t);
      DelExec(rest, t - {KeyOf(s)});
      LessKeys(t, KeyOf(s), Denoted(rest).Keys);
      assert Denoted(srvs).Keys == {KeyOf(s)} + Denoted(rest).Keys;
    }
  }

  lemma LessKeys(t: Table, k: Key, ks: set<Key>)
    ensures t - {k} - ks == t - ({k} + ks)
  {
  }

  lemma DelFirst(s: Service, rest: seq<Service>, t: Table)
    requires Supported(s) && KeyOf(s) in t && Patch(rest, Deleting).Some?
    ensures Committed([s] + rest, Deleting, t) == Exec(Patch(rest, Deleting).value, t - {KeyOf(s)})
  {
    var first, more := [DelService(KeyOf(s))], Patch(rest, Deleting).value;
    assert ([s] + rest)[1..] == rest && first[1..] == [];
    ExecAppend(first, more, t);
  }

  lemma {:induction false} DenotedAppend(a: seq<Service>, b: seq<Service>)
    requires UniqueKeys(a + b)
    ensures Denoted(a + b) == Denoted(a) + Denoted(b)
    decreases |a|
  {
    if a == [] {
      assert a + b == b;
      assert map[] + Denoted(b) == Denoted(b);
    } else {
      var s, rest := a[0], a[1..];
      assert a + b == [s] + (rest + b) && (a + b)[1..] == rest + b;
      UniqueCons(s, rest + b);
      DenotedAppend(rest, b);
      assert forall x :: x in b ==> x in rest + b;
      DenotedKeys(b, KeyOf(s));
    }
  }

  lemma {:induction false} UniqueAppend(a: seq<Service>, b: seq<Service>)
    ensures UniqueKeys(a + b) <==> UniqueKeys(a) && UniqueKeys(b) && NewTo(b, Denoted(a))
    decreases |a|
  {
    if a == [] {
      assert a + b == b;
    } else {
      var s, rest := a[0], a[1..];
      assert a + b == [s] + (rest + b) && a == [s] + rest;
      UniqueCons(s, rest + b);
      UniqueCons(s, rest);
      UniqueAppend(rest, b);
      assert forall x :: x in rest + b <==> x in rest || x in b;
    }
  }

  // ---- the operations ----

  function RawKeys(spec: seq<Service>): set<RawKey> {
    set s | s in spec :: Raw(s)
  }

  /** One of the services has a key, as written, that exists or comes twice. */
  predicate Conflict(exist: set<RawKey>, srvs: seq<Service>)
    decreases |srvs|
  {
    srvs != [] && (Raw(srvs[0]) in exist || Conflict(exist + {Raw(srvs[0])}, srvs[1..]))
  }

  /** The services whose key, as written, is listed; and the others. */
  function Hit(spec: seq<Service>, keys: set<RawKey>): seq<Service> {
    if spec == [] then []
    else if Raw(spec[0]) in keys then [spec[0]] + Hit(spec[1..], keys)
    else Hit(spec[1..], keys)
  }

  function Miss(spec: seq<Service>, keys: set<RawKey>): seq<Service> {
    if spec == [] then []
    else if Raw(spec[0]) in keys then Miss(spec[1..], keys)
    else [spec[0]] + Miss(spec[1..], keys)
  }

  datatype Op = Add(srvs: seq<Service>) | Del(srvs: seq<Service>) | Update(srvs: seq<Service>)

  /**
   Whether the calls into the sandbox work: listing the table, running the commands, and, when
   the commands fail, clearing the table and putting the listed one back.
   */
  datatype Calls = Calls(listOk: bool, applyOk: bool, clearOk: bool, replayOk: bool) {
    predicate Restores() {
      clearOk && replayOk
    }
  }

  /** A new specification and table; or nothing has changed, or not for long; or the table may be any. */
  datatype Effect = Done(spec: seq<Service>, table: Table) | Kept | Broken

  /** Sending the commands of services to the sandbox, for a new specification. */
  function Send(spec: seq<Service>, srvs: seq<Service>, op: Operation, t: Table, io: Calls): Effect {
    if Patch(srvs, op).None? || !io.listOk then Kept
    else
      var r := Committed(srvs, op, t);
      if io.applyOk && r.Some? then Done(spec, r.value) else if io.Restores() then Kept else Broken
  }

  /** An operation on a running pod. */
  function Apply(spec: seq<Service>, t: Table, op: Op, io: Calls): Effect {
    match op
    case Add(srvs) => if Conflict(RawKeys(spec), srvs) then Kept else Send(spec + srvs, srvs, Adding, t, io)
    case Del(srvs) => var keys := RawKeys(srvs); Send(Miss(spec, keys), Hit(spec, keys), Deleting, t, io)
    case Update(srvs) => if Conflict({}, srvs) then Kept else Send(srvs, srvs, Adding, map[], io)
  }

  /** A service for which there are commands. */
  predicate Writable(s: Service) {
    Supported(s) && s.ip != "" && s.port != 0
  }

  ghost predicate AllWritable(srvs: seq<Service>) {
    forall s :: s in srvs ==> Writable(s)
  }

  lemma AddPatch(srvs: seq<Service>)
    ensures Patch(srvs, Adding).Some? <==> AllWritable(srvs)
    ensures AllGood(srvs) ==> AllWritable(srvs)
  {
    PatchMade(srvs, Adding);
    assert forall s :: Generate(s, Adding).Some? <==> Writable(s);
  }

  lemma {:induction false} ConflictMeansEqualKeys(spec: seq<Service>, srvs: seq<Service>)
    requires Conflict(RawKeys(spec), srvs)
    ensures !UniqueKeys(spec + srvs)
    decreases |srvs|
  {
    var s, rest := srvs[0], srvs[1..];
    assert srvs == [s] + rest;
    if Raw(s) in RawKeys(spec) {
      var x :| x in spec && Raw(x) == Raw(s);
      var i :| 0 <= i < |spec| && spec[i] == x;
      assert (spec + srvs)[i] == x && (spec + srvs)[|spec|] == s;
    } else {
      assert RawKeys(spec + [s]) == RawKeys(spec) + {Raw(s)};
      ConflictMeansEqualKeys(spec + [s], rest);
      assert spec + [s] + rest == spec + srvs;
    }
  }

  /**
   Adding succeeds exactly when the sandbox works, the services are good and no two table keys
   are then equal; the table follows. Otherwise nothing has changed exactly when a key as
   written is taken, a service has no commands, the table cannot be listed, or is put back.
   */
  lemma AddAgrees(spec: seq<Service>, t: Table, srvs: seq<Service>, io: Calls)
    requires Agree(spec, t)
    ensures var e := Apply(spec, t, Add(srvs), io);
            if io.listOk && io.applyOk && AllGood(srvs) && UniqueKeys(spec + srvs)
            then e == Done(spec + srvs, Denoted(spec + srvs))
            else if Conflict(RawKeys(spec), srvs) || !AllWritable(srvs) || !io.listOk || io.Restores() then e == Kept
            else e == Broken
  {
    AddExec(srvs, t);
    AddPatch(srvs);
    UniqueAppend(spec, srvs);
    if UniqueKeys(spec + srvs) { DenotedAppend(spec, srvs); }
    if Conflict(RawKeys(spec), srvs) { ConflictMeansEqualKeys(spec, srvs); }
  }

  /** The same for updating, whatever the table was before. */
  lemma UpdateAgrees(spec: seq<Service>, t: Table, srvs: seq<Service>, io: Calls)
    ensures var e := Apply(spec, t, Update(srvs), io);
            if io.listOk && io.applyOk && AllGood(srvs) && UniqueKeys(srvs) then e == Done(srvs, Denoted(srvs))
            else if Conflict({}, srvs) || !AllWritable(srvs) || !io.listOk || io.Restores() then e == Kept
            else e == Broken
  {
    AddExec(srvs, map[]);
    AddPatch(srvs);
    assert map[] + Denoted(srvs) == Denoted(srvs);
    if Conflict({}, srvs) {
      assert RawKeys([]) == {} && [] + srvs == srvs;
      ConflictMeansEqualKeys([], srvs);
    }
  }

  lemma {:induction false} HitMiss(spec: seq<Service>, keys: set<RawKey>, s: Service)
    ensures s in Hit(spec, keys) <==> s in spec && Raw(s) in keys
    ensures s in Miss(spec, keys) <==> s in spec && Raw(s) !in keys
  {
    if spec == [] {
    } else {
      assert spec == [spec[0]] + spec[1..];
      HitMiss(spec[1..], keys, s);
    }
  }

  lemma {:induction false} HitUnique(spec: seq<Service>, keys: set<RawKey>)
    requires UniqueKeys(spec)
    ensures UniqueKeys(Hit(spec, keys)) && UniqueKeys(Miss(spec, keys))
    ensures Denoted(spec) - Denoted(Hit(spec, keys)).Keys == Denoted(Miss(spec, keys))
  {
    if spec == [] {
    } else {
      var s, rest := spec[0], spec[1..];
      assert spec == [s] + rest;
      UniqueCons(s, rest);
      HitUnique(rest, keys);
      forall x ensures (x in Hit(rest, keys) ==> x in rest) && (x in Miss(rest, keys) ==> x in rest) {
        HitMiss(rest, keys, x);
      }
      DenotedKeys(rest, KeyOf(s));
      DenotedKeys(Hit(rest, keys), KeyOf(s));
      if Raw(s) in keys {
        UniqueCons(s, Hit(rest, keys));
        assert ([s] + Hit(rest, keys))[1..] == Hit(rest, keys);
      } else {
        UniqueCons(s, Miss(rest, keys));
        assert ([s] + Miss(rest, keys))[1..] == Miss(rest, keys);
      }
    }
  }

  /** Deleting succeeds exactly when the sandbox works, and the table is the one the remaining services denote. */
  lemma DelAgrees(spec: seq<Service>, t: Table, srvs: seq<Service>, io: Calls)
    requires Agree(spec, t)
    ensures var rest := Miss(spec, RawKeys(srvs));
            && Agree(rest, Denoted(rest))
            && Apply(spec, t, Del(srvs), io)
               == if io.listOk && io.applyOk then Done(rest, Denoted(rest))
                  else if !io.listOk || io.Restores() then Kept
                  else Broken
  {
    var keys := RawKeys(srvs);
    HitUnique(spec, keys);
    forall s ensures (s in Hit(spec, keys) ==> s in spec) && (s in Miss(spec, keys) ==> s in spec) { HitMiss(spec, keys, s); }
    forall s | s in Hit(spec, keys) ensures KeyOf(s) in t { DenotedKeys(spec, KeyOf(s)); }
    DelExec(Hit(spec, keys), t);
  }

  /** `apply` at start, on an empty table, succeeds exactly when the sandbox works, the services are good and their keys differ. */
  lemma ApplyAgrees(spec: seq<Service>, io: Calls)
    ensures var e := Send(spec, spec, Adding, map[], io);
            && (e.Done? <==> io.listOk && io.applyOk && AllGood(spec) && UniqueKeys(spec))
            && (e.Done? ==> Agree(e.spec, e.table))
            && (e.Broken? <==> AllWritable(spec) && io.listOk && !e.Done? && !io.Restores())
  {
    AddExec(spec, map[]);
    AddPatch(spec);
    assert map[] + Denoted(spec) == Denoted(spec);
  }

  /** A run of operations none of which leaves the table open. */
  function Run(spec: seq<Service>, t: Table, ops: seq<(Op, Calls)>): Option<(seq<Service>, Table)>
    decreases |ops|
  {
    if ops == [] then Some((spec, t))
    else
      match Apply(spec, t, ops[0].0, ops[0].1)
      case Done(spec', t') => Run(spec', t', ops[1..])
      case Kept => Run(spec, t, ops[1..])
      case Broken => None
  }

  lemma StepAgrees(spec: seq<Service>, t: Table, op: Op, io: Calls)
    requires Agree(spec, t) && Apply(spec, t, op, io).Done?
    ensures var e := Apply(spec, t, op, io); Agree(e.spec, e.table)
  {
    match op
    case Add(srvs) =>
      AddAgrees(spec, t, srvs, io);
      assert forall s :: s in spec + srvs <==> s in spec || s in srvs;
    case Del(srvs) => DelAgrees(spec, t, srvs, io);
    case Update(srvs) => UpdateAgrees(spec, t, srvs, io);
  }

  /** Whatever succeeds, is refused or is put back, in whatever order, table and specification agree. */
  lemma {:induction false} RunAgrees(spec: seq<Service>, t: Table, ops: seq<(Op, Calls)>)
    requires Agree(spec, t) && Run(spec, t, ops).Some?
    ensures var r := Run(spec, t, ops).value; Agree(r.0, r.1)
    decreases |ops|
  {
    if ops == [] {
    } else {
      var e := Apply(spec, t, ops[0].0, ops[0].1);
      if e.Done? {
        StepAgrees(spec, t, ops[0].0, ops[0].1);
        RunAgrees(e.spec, e.table, ops[1..]);
      } else {
        RunAgrees(spec, t, ops[1..]);
      }
    }
  }
}
