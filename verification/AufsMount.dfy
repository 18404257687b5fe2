/**
 Packing aufs layers into mount options. The first mount takes as many read-only layers as fit
 into one page beside the other options; the rest are appended one by one. Strings are byte
 strings.
 */
module AufsMount {
  import opened Basics

  // ---- the option texts ----

  function Layer(path: string): string {
    ":" + path + "=ro+wh"
  }

  function Branch(rw: string, readonly: bool): string {
    "br:" + rw + "=" + (if readonly then "ro" else "rw")
  }

  function Options(dirperm: bool): string {
    "dio,xino=/dev/shm/aufs.xino" + if dirperm then ",dirperm1" else ""
  }

  /** `FormatMountLabel` of a non-empty text; `quoted` is the label as `%q` prints it. */
  function WithLabel(src: string, mountLabel: string, quoted: string): string {
    if mountLabel == "" then src else src + ",context=" + quoted
  }

  function Offset(dirperm: bool): nat {
    54 + if dirperm then |",dirperm1"| else 0
  }

  /** What one mount is given. */
  datatype Config = Config(rw: string, ro: seq<string>, mountLabel: string, quoted: string, readonly: bool, dirperm: bool, page: nat) {
    /** The buffer for the branches has a size. */
    predicate Valid() {
      page >= |mountLabel| + Offset(dirperm)
    }

    function Room(): nat
      requires Valid()
    {
      page - |mountLabel| - Offset(dirperm)
    }

    function First(): string {
      Branch(rw, readonly)
    }
  }

  datatype Mount = Mount(remount: bool, data: string)

  // ---- what is mounted ----

  /** The number of layers that still fit behind `bp` bytes. */
  function Fit(bp: nat, ro: seq<string>, room: nat): (k: nat)
    ensures k <= |ro|
    decreases |ro|
  {
    if ro == [] || bp + |Layer(ro[0])| > room then 0 else 1 + Fit(bp + |Layer(ro[0])|, ro[1..], room)
  }

  function Layers(ro: seq<string>): string {
    if ro == [] then "" else Layer(ro[0]) + Layers(ro[1..])
  }

  /** The text at the start of the buffer, cut to the buffer's size. */
  function Start(c: Config): (s: string)
    requires c.Valid()
    ensures |s| <= c.Room()
  {
    if |c.First()| <= c.Room() then c.First() else c.First()[..c.Room()]
  }

  function Packed(c: Config): nat
    requires c.Valid()
  {
    Fit(|Start(c)|, c.ro, c.Room())
  }

  function FirstData(c: Config): string
    requires c.Valid()
  {
    WithLabel(Start(c) + Layers(c.ro[..Packed(c)]) + "," + Options(c.dirperm), c.mountLabel, c.quoted)
  }

  function Append(path: string, c: Config): Mount {
    Mount(true, WithLabel("append" + Layer(path), c.mountLabel, c.quoted))
  }

  function Appends(ro: seq<string>, c: Config): seq<Mount> {
    if ro == [] then [] else [Append(ro[0], c)] + Appends(ro[1..], c)
  }

  function Mounts(c: Config): seq<Mount>
    requires c.Valid()
  {
    [Mount(false, FirstData(c))] + Appends(c.ro[Packed(c)..], c)
  }

  // ---- the page bound ----

  lemma {:induction false} FitBound(bp: nat, ro: seq<string>, room: nat)
    requires bp <= room
    ensures bp + |Layers(ro[..Fit(bp, ro, room)])| <= room
    decreases |ro|
  {
    var k := Fit(bp, ro, room);
    if k == 0 {
    } else {
      FitBound(bp + |Layer(ro[0])|, ro[1..], room);
      assert ro[..k][1..] == ro[1..][..k - 1];
    }
  }

  /** As many layers go into the first mount as fit: the next one would not. */
  lemma {:induction false} FitIsMost(bp: nat, ro: seq<string>, room: nat)
    ensures var k := Fit(bp, ro, room); k < |ro| ==> bp + |Layers(ro[..k])| + |Layer(ro[k])| > room
    decreases |ro|
  {
    var k := Fit(bp, ro, room);
    if k == 0 {
    } else {
      FitIsMost(bp + |Layer(ro[0])|, ro[1..], room);
      assert ro[..k][1..] == ro[1..][..k - 1];
      assert k < |ro| ==> ro[k] == ro[1..][k - 1];
    }
  }

  /** With a label that needs no escapes, the first mount's options stay 15 bytes below the page size. */
  lemma BelowPage(c: Config)
    requires c.Valid() && |c.quoted| == |c.mountLabel| + 2
    ensures |FirstData(c)| + 15 <= c.page
  {
    FitBound(|Start(c)|, c.ro, c.Room());
  }

  // ---- the branch stack ----

  /** The branches of an option text: what stands between colons, up to the first comma. */
  function Split(s: string): (bs: seq<string>)
    ensures |bs| > 0
  {
    if s == "" || s[0] == ',' then [""]
    else
      var rest := Split(s[1..]);
      if s[0] == ':' then [""] + rest else [[s[0]] + rest[0]] + rest[1..]
  }

  predicate StartsWith(s: string, p: string) {
    |p| <= |s| && s[..|p|] == p
  }

  /** What the kernel makes of one mount: a new stack, or one branch more. */
  function Kernel(stack: seq<string>, m: Mount): Option<seq<string>> {
    if !m.remount then if StartsWith(m.data, "br:") then Some(Split(m.data[3..])) else None
    else if StartsWith(m.data, "append:") then Some(stack + Split(m.data[7..]))
    else None
  }

  function Stack(ms: seq<Mount>, stack: seq<string>): Option<seq<string>>
    decreases |ms|
  {
    if ms == [] then Some(stack)
    else
      var next := Kernel(stack, ms[0]);
      if next.None? then None else Stack(ms[1..], next.value)
  }

  predicate Clean(path: string) {
    ':' !in path && ',' !in path
  }

  function Wanted(ro: seq<string>): seq<string> {
    if ro == [] then [] else [ro[0] + "=ro+wh"] + Wanted(ro[1..])
  }

  lemma {:induction false} SplitHead(a: string, tail: string)
    requires Clean(a) && (tail == "" || tail[0] == ',' || tail[0] == ':')
    ensures Split(a + tail) == if tail != "" && tail[0] == ':' then [a] + Split(tail[1..]) else [a]
    decreases |a|
  {
    if a == "" {
      assert a + tail == tail;
    } else {
      assert a[0] in a && forall c :: c in a[1..] ==> c in a;
      assert (a + tail)[0] == a[0] && (a + tail)[1..] == a[1..] + tail;
      SplitHead(a[1..], tail);
      assert [a[0]] + a[1..] == a;
    }
  }

  predicate EndsBranches(tail: string) {
    tail == "" || tail[0] == ','
  }

  lemma LayerClean(path: string)
    requires Clean(path)
    ensures Clean(path + "=ro+wh")
  {
  }

  ghost predicate AllClean(ro: seq<string>) {
    forall p :: p in ro ==> Clean(p)
  }

  lemma {:induction false} SplitLayers(a: string, ro: seq<string>, tail: string)
    requires Clean(a) && AllClean(ro) && EndsBranches(tail)
    ensures Split(a + (Layers(ro) + tail)) == [a] + Wanted(ro)
    decreases |ro|
  {
    var text := Layers(ro) + tail;
    if ro == [] {
      assert text == tail;
      SplitHead(a, tail);
      assert [a] + [] == [a];
    } else {
      assert ro[0] in ro && forall p :: p in ro[1..] ==> p in ro;
      var x, rest := ro[0] + "=ro+wh", Layers(ro[1..]) + tail;
      LayerClean(ro[0]);
      assert text[0] == ':' && text[1..] == x + rest;
      SplitHead(a, text);
      SplitLayers(x, ro[1..], tail);
    }
  }

  lemma LabelEnds(src: string, c: Config) returns (tail: string)
    ensures WithLabel(src, c.mountLabel, c.quoted) == src + tail && EndsBranches(tail)
  {
    if c.mountLabel == "" {
      tail := "";
      assert src + "" == src;
    } else {
      tail := ",context=" + c.quoted;
      assert src + tail == src + ",context=" + c.quoted;
    }
  }

  /** Each append puts its layer at the end of the stack. */
  lemma {:induction false} AppendsStack(ro: seq<string>, c: Config, stack: seq<string>)
    requires AllClean(ro)
    ensures Stack(Appends(ro, c), stack) == Some(stack + Wanted(ro))
    decreases |ro|
  {
    if ro == [] {
      assert stack + [] == stack;
    } else {
      assert ro[0] in ro && forall p :: p in ro[1..] ==> p in ro;
      var m, x := Append(ro[0], c), ro[0] + "=ro+wh";
      LayerClean(ro[0]);
      var tail := LabelEnds("append" + Layer(ro[0]), c);
      assert m.data == "append:" + (x + tail);
      assert m.data[..7] == "append:" && m.data[7..] == x + tail;
      SplitHead(x, tail);
      assert Appends(ro, c)[1..] == Appends(ro[1..], c);
      AppendsStack(ro[1..], c, stack + [x]);
      assert stack + [x] + Wanted(ro[1..]) == stack + ([x] + Wanted(ro[1..]));
    }
  }

  lemma {:induction false} WantedAppend(a: seq<string>, b: seq<string>)
    ensures Wanted(a + b) == Wanted(a) + Wanted(b)
    decreases |a|
  {
    if a == [] {
      assert a + b == b && [] + Wanted(b) == Wanted(b);
    } else {
      assert (a + b)[1..] == a[1..] + b;
      WantedAppend(a[1..], b);
    }
  }

  /** The first branch: the writable directory, or the top layer when the mount is read-only. */
  function Top(c: Config): string {
    c.rw + "=" + if c.readonly then "ro" else "rw"
  }

  /** What the first mount gives the kernel, when the first branch is cut to its first `n` bytes. */
  lemma FirstStack(c: Config, n: nat, k: nat)
    requires c.Valid() && Clean(c.rw) && AllClean(c.ro) && n <= |Top(c)| && k <= |c.ro|
    requires FirstData(c) == WithLabel("br:" + Top(c)[..n] + Layers(c.ro[..k]) + "," + Options(c.dirperm), c.mountLabel, c.quoted)
    ensures Kernel([], Mount(false, FirstData(c))) == Some([Top(c)[..n]] + Wanted(c.ro[..k]))
  {
    var top, ro := Top(c)[..n], c.ro[..k];
    var tail := LabelEnds("br:" + top + Layers(ro) + "," + Options(c.dirperm), c);
    var rest := "," + Options(c.dirperm) + tail;
    Regroup("br:", top, Layers(ro), ",", Options(c.dirperm), tail);
    KernelFirst(top + (Layers(ro) + rest));
    CleanPrefix(c, n);
    assert forall p :: p in ro ==> p in c.ro;
    SplitLayers(top, ro, rest);
  }

  lemma Regroup(a: string, b: string, c: string, d: string, e: string, f: string)
    ensures a + b + c + d + e + f == a + (b + (c + (d + e + f)))
  {
  }

  lemma KernelFirst(x: string)
    ensures Kernel([], Mount(false, "br:" + x)) == Some(Split(x))
  {
    var data := "br:" + x;
    assert data[..3] == "br:" && data[3..] == x;
  }

  lemma CleanPrefix(c: Config, n: nat)
    requires Clean(c.rw) && n <= |Top(c)|
    ensures Clean(Top(c)[..n])
  {
    assert Clean(Top(c));
    assert forall x :: x in Top(c)[..n] ==> x in Top(c);
  }

  /** The stack that the mounts leave, when the first branch is cut to its first `n` bytes. */
  lemma WholeStack(c: Config, n: nat)
    requires c.Valid() && Clean(c.rw) && AllClean(c.ro) && n <= |Top(c)|
    requires Start(c) == "br:" + Top(c)[..n]
    ensures Stack(Mounts(c), []) == Some([Top(c)[..n]] + Wanted(c.ro))
  {
    var k, top := Packed(c), Top(c)[..n];
    FirstStack(c, n, k);
    RestStack(c, k, [top] + Wanted(c.ro[..k]));
    WantedAppend(c.ro[..k], c.ro[k..]);
    assert c.ro[..k] + c.ro[k..] == c.ro;
    assert [top] + Wanted(c.ro[..k]) + Wanted(c.ro[k..]) == [top] + (Wanted(c.ro[..k]) + Wanted(c.ro[k..]));
  }

  lemma RestStack(c: Config, k: nat, stack: seq<string>)
    requires c.Valid() && AllClean(c.ro) && k == Packed(c)
    requires Kernel([], Mount(false, FirstData(c))) == Some(stack)
    ensures Stack(Mounts(c), []) == Some(stack + Wanted(c.ro[k..]))
  {
    assert Mounts(c)[1..] == Appends(c.ro[k..], c);
    assert forall p :: p in c.ro[k..] ==> p in c.ro;
    AppendsStack(c.ro[k..], c, stack);
  }

  lemma TooShort(c: Config)
    requires c.Valid() && c.Room() < 3
    ensures !StartsWith(FirstData(c), "br:")
  {
    var start, options := Start(c), Options(c.dirperm);
    assert |start| == c.Room() && Packed(c) == 0 && c.ro[..0] == [];
    assert FirstData(c) == WithLabel(start + "" + "," + options, c.mountLabel, c.quoted);
    var tail := LabelEnds(start + "" + "," + options, c);
    CommaAt(start, options, tail);
  }

  lemma CommaAt(start: string, options: string, tail: string)
    requires |start| < 3
    ensures !StartsWith(start + "" + "," + options + tail, "br:")
  {
    var s := start + "" + "," + options + tail;
    assert s[|start|] == ',';
    assert "br:"[|start|] != ',';
    if |s| >= 3 { assert s[..3][|start|] == ','; }
  }

  lemma {:induction false} SplitClean(s: string)
    ensures AllClean(Split(s))
  {
    if s != "" && s[0] != ',' {
      SplitClean(s[1..]);
      var rest := Split(s[1..]);
      assert rest[0] in rest;
      if s[0] != ':' {
        assert Clean([s[0]] + rest[0]);
        assert forall b :: b in rest[1..] ==> b in rest;
      }
    }
  }

  /** No branch the kernel makes has a colon or a comma in it. */
  lemma {:induction false} StackClean(ms: seq<Mount>, stack: seq<string>)
    requires AllClean(stack)
    ensures var r := Stack(ms, stack); r.Some? ==> AllClean(r.value)
    decreases |ms|
  {
    if ms == [] {
    } else {
      var m, next := ms[0], Kernel(stack, ms[0]);
      if next.Some? {
        SplitClean(m.data[if m.remount then 7 else 3..]);
        StackClean(ms[1..], next.value);
      }
    }
  }

  lemma {:induction false} WantedClean(ro: seq<string>)
    requires AllClean(Wanted(ro))
    ensures AllClean(ro)
  {
    if ro == [] {
    } else {
      var w := Wanted(ro);
      assert w[0] in w && w[1..] == Wanted(ro[1..]);
      assert forall p :: p in w[1..] ==> p in w;
      WantedClean(ro[1..]);
      assert forall x :: x in ro[0] ==> x in ro[0] + "=ro+wh";
      assert ro == [ro[0]] + ro[1..];
    }
  }

  /** A stack that is as wanted has no path with a colon or a comma. */
  lemma WantedNeedsClean(c: Config)
    requires c.Valid() && Stack(Mounts(c), []) == Some([Top(c)] + Wanted(c.ro))
    ensures Clean(c.rw) && AllClean(c.ro)
  {
    StackClean(Mounts(c), []);
    var stack := [Top(c)] + Wanted(c.ro);
    assert stack[0] in stack && forall p :: p in Wanted(c.ro) ==> p in stack;
    assert forall x :: x in c.rw ==> x in Top(c);
    WantedClean(c.ro);
  }

  lemma FitsIff(c: Config)
    requires c.Valid() && Clean(c.rw) && AllClean(c.ro)
    ensures Stack(Mounts(c), []) == Some([Top(c)] + Wanted(c.ro)) <==> |c.First()| <= c.Room()
  {
    var top, room := Top(c), c.Room();
    assert c.First() == "br:" + top;
    if |c.First()| <= room {
      assert top[..|top|] == top;
      WholeStack(c, |top|);
    } else if room < 3 {
      TooShort(c);
    } else {
      assert Start(c) == "br:" + top[..room - 3];
      WholeStack(c, room - 3);
      assert ([top[..room - 3]] + Wanted(c.ro))[0] != ([top] + Wanted(c.ro))[0];
    }
  }

  /**
   When all mounts succeed, the stack is the first branch followed by every read-only layer
   once and in order, exactly when the first branch fits the buffer and no path has a colon
   or a comma in it.
   */
  lemma StackIff(c: Config)
    requires c.Valid()
    ensures Stack(Mounts(c), []) == Some([Top(c)] + Wanted(c.ro))
            <==> |c.First()| <= c.Room() && Clean(c.rw) && AllClean(c.ro)
  {
    if Stack(Mounts(c), []) == Some([Top(c)] + Wanted(c.ro)) { WantedNeedsClean(c); }
    if Clean(c.rw) && AllClean(c.ro) { FitsIff(c); }
  }

  /** The page size of the machines the daemon runs on. */
  const PAGE := 4096

  /** Of a first branch that does not fit only the start is mounted: here the path loses its last byte, and its mode. */
  lemma LongBranchIsCut(rw: string)
    requires Clean(rw) && |rw| == 4040
    ensures var c := Config(rw, [], "", "", false, false, PAGE);
            c.Valid() && Stack(Mounts(c), []) == Some([rw[..4039]])
  {
    var c := Config(rw, [], "", "", false, false, PAGE);
    assert Top(c)[..4039] == rw[..4039];
    assert Start(c) == "br:" + Top(c)[..4039];
    WholeStack(c, 4039);
    assert [rw[..4039]] + [] == [rw[..4039]];
  }

  /** A path with a colon in it becomes two branches. */
  lemma ColonSplits()
    ensures var c := Config("/a:b", [], "", "", false, false, PAGE);
            c.Valid() && Stack(Mounts(c), []) != Some([Top(c)])
  {
    var c := Config("/a:b", [], "", "", false, false, PAGE);
    assert c.rw[2] == ':' && !Clean(c.rw);
    StackIff(c);
    assert [Top(c)] + [] == [Top(c)];
  }

  // ---- packing, as it runs ----

  /** `copy(b[at:], s)`: as much as there is room for. */
  method Copy(b: array<char>, at: nat, s: string) returns (n: nat)
    requires at <= b.Length
    modifies b
    ensures n == if |s| <= b.Length - at then |s| else b.Length - at
    ensures b[..at + n] == old(b[..at]) + s[..n]
  {
    n := 0;
    while n < |s| && at + n < b.Length
      invariant n <= |s| && at + n <= b.Length
      invariant b[..at + n] == old(b[..at]) + s[..n]
    {
      b[at + n] := s[n];
      n := n + 1;
    }
  }

  lemma {:induction false} LayersThen(ro: seq<string>, path: string)
    ensures Layers(ro + [path]) == Layers(ro) + Layer(path)
    decreases |ro|
  {
    if ro == [] {
      assert [] + [path] == [path] && [path][1..] == [];
      assert Layer(path) + "" == Layer(path) && "" + Layer(path) == Layer(path);
    } else {
      assert (ro + [path])[1..] == ro[1..] + [path];
      LayersThen(ro[1..], path);
    }
  }

  /** While packing: the buffer holds the first branch and `i` layers, and what fits from here on decides the rest. */
  ghost predicate Packing(c: Config, text: string, i: nat)
    requires c.Valid() && i <= |c.ro|
  {
    && text == Start(c) + Layers(c.ro[..i]) && |text| <= c.Room()
    && i + Fit(|text|, c.ro[i..], c.Room()) == Packed(c)
  }

  lemma PackOne(c: Config, text: string, i: nat)
    requires c.Valid() && i < |c.ro| && Packing(c, text, i)
    ensures if |text| + |Layer(c.ro[i])| > c.Room() then i == Packed(c) else Packing(c, text + Layer(c.ro[i]), i + 1)
  {
    assert c.ro[i..][0] == c.ro[i] && c.ro[i..][1..] == c.ro[i + 1..];
    assert c.ro[..i + 1] == c.ro[..i] + [c.ro[i]];
    LayersThen(c.ro[..i], c.ro[i]);
    assert Start(c) + (Layers(c.ro[..i]) + Layer(c.ro[i])) == text + Layer(c.ro[i]);
  }

  lemma PackDone(c: Config, text: string)
    requires c.Valid() && Packing(c, text, Packed(c))
    ensures WithLabel(text + "," + Options(c.dirperm), c.mountLabel, c.quoted) == FirstData(c)
  {
  }

  /** After the first mount: what has been mounted, and what is still to be appended. */
  ghost predicate Appending(c: Config, done: seq<Mount>, i: nat)
    requires c.Valid() && i <= |c.ro|
  {
    done + Appends(c.ro[i..], c) == Mounts(c)
  }

  lemma AppendOne(c: Config, done: seq<Mount>, i: nat)
    requires c.Valid() && i < |c.ro| && Appending(c, done, i)
    ensures Appending(c, done + [Append(c.ro[i], c)], i + 1)
    ensures |done| < |Mounts(c)| && done == Mounts(c)[..|done|]
  {
    var m, rest := Append(c.ro[i], c), Appends(c.ro[i + 1..], c);
    assert c.ro[i..][0] == c.ro[i] && c.ro[i..][1..] == c.ro[i + 1..];
    assert done + ([m] + rest) == done + [m] + rest;
  }

  ghost predicate NoneFailed(done: seq<Mount>, fails: set<nat>) {
    forall j: nat :: j < |done| ==> j !in fails
  }

  /** Packs one layer, if it fits. */
  method PackLayer(c: Config, b: array<char>, bp: nat, i: nat) returns (bp': nat, full: bool)
    requires c.Valid() && i < |c.ro| && bp <= b.Length == c.Room() && Packing(c, b[..bp], i)
    modifies b
    ensures bp' <= b.Length
    ensures if full then Packing(c, b[..bp'], i) && i == Packed(c) else Packing(c, b[..bp'], i + 1)
  {
    var layer := Layer(c.ro[i]);
    PackOne(c, b[..bp], i);
    if bp + |layer| > b.Length {
      return bp, true;
    }
    var n := Copy(b, bp, layer);
    assert layer[..n] == layer;
    bp', full := bp + n, false;
  }

  /** Appends one layer, if the mount works. */
  method AppendLayer(c: Config, i: nat, done: seq<Mount>, fails: set<nat>) returns (done': seq<Mount>, failed: bool)
    requires c.Valid() && i < |c.ro| && Appending(c, done, i) && NoneFailed(done, fails)
    ensures NoneFailed(done', fails)
    ensures if failed then done' == done && |done| < |Mounts(c)| && done == Mounts(c)[..|done|] && |done| in fails
            else Appending(c, done', i + 1)
  {
    AppendOne(c, done, i);
    failed := |done| in fails;
    done' := if failed then done else done + [Append(c.ro[i], c)];
  }

  /** The inner loop: packs layers before the first mount, and appends them after it. */
  method Pass(c: Config, firstMount: bool, b: array<char>, bp0: nat, i0: nat, done0: seq<Mount>, fails: set<nat>)
    returns (bp: nat, i: nat, done: seq<Mount>, failed: bool)
    requires c.Valid() && i0 <= |c.ro| && bp0 <= b.Length == c.Room() && NoneFailed(done0, fails)
    requires if firstMount then done0 == [] && Packing(c, b[..bp0], i0) else Appending(c, done0, i0)
    modifies b
    ensures i0 <= i <= |c.ro| && bp <= b.Length && NoneFailed(done, fails)
    ensures firstMount ==> !failed && done == [] && Packing(c, b[..bp], i) && i == Packed(c)
    ensures !firstMount && !failed ==> Appending(c, done, i) && i == |c.ro|
    ensures failed ==> |done| < |Mounts(c)| && done == Mounts(c)[..|done|] && |done| in fails
  {
    bp, i, done := bp0, i0, done0;
    while i < |c.ro|
      invariant i0 <= i <= |c.ro| && bp <= b.Length && NoneFailed(done, fails)
      invariant if firstMount then done == [] && Packing(c, b[..bp], i) else Appending(c, done, i)
    {
      if firstMount {
        var full;
        bp, full := PackLayer(c, b, bp, i);
        if full {
          return bp, i, done, false;
        }
      } else {
        done, failed := AppendLayer(c, i, done, fails);
        if failed {
          return;
        }
      }
      i := i + 1;
    }
    failed := false;
  }

  lemma FirstDone(c: Config, m: Mount, i: nat)
    requires c.Valid() && i == Packed(c) && m == Mount(false, FirstData(c))
    ensures Appending(c, [m], i)
  {
  }

  lemma AllDone(c: Config, done: seq<Mount>)
    requires c.Valid() && Appending(c, done, |c.ro|)
    ensures done == Mounts(c)
  {
    assert c.ro[|c.ro|..] == [] && done + [] == done;
  }

  /**
   `aufsMount`: `fails` says which mount calls fail. Either all mounts are made, or those
   before the first that fails.
   */
  method MountAll(c: Config, fails: set<nat>) returns (done: seq<Mount>, ok: bool)
    requires c.Valid()
    ensures NoneFailed(done, fails)
    ensures ok ==> done == Mounts(c)
    ensures !ok ==> |done| < |Mounts(c)| && done == Mounts(c)[..|done|] && |done| in fails
  {
    var b := new char[c.Room()];
    var bp: nat := Copy(b, 0, c.First());
    var firstMount, i: nat := true, 0;
    done := [];
    PackStart(c, b[..bp]);
    while true
      invariant i <= |c.ro| && bp <= b.Length && NoneFailed(done, fails)
      invariant if firstMount then done == [] && Packing(c, b[..bp], i) else Appending(c, done, i) && i < |c.ro|
      decreases firstMount, |c.ro| - i
    {
      var failed;
      bp, i, done, failed := Pass(c, firstMount, b, bp, i, done, fails);
      if failed {
        return done, false;
      }
      if firstMount {
        PackDone(c, b[..bp]);
        if 0 in fails {
          return done, false;
        }
        done := [Mount(false, WithLabel(b[..bp] + "," + Options(c.dirperm), c.mountLabel, c.quoted))];
        FirstDone(c, done[0], i);
        firstMount := false;
      }
      if i == |c.ro| {
        AllDone(c, done);
        return done, true;
      }
    }
  }

  lemma PackStart(c: Config, text: string)
    requires c.Valid() && text == c.First()[..if |c.First()| <= c.Room() then |c.First()| else c.Room()]
    ensures Packing(c, text, 0)
  {
    assert text == Start(c) && c.ro[..0] == [] && c.ro[0..] == c.ro && text + "" == text;
  }
}
