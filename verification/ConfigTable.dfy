/**
 The five tables behind a `ConfigFile`, for any types of section names, keys and values,
 and what it takes to rebuild them entry by entry.
 */
module ConfigTable {
  import opened Basics

  datatype Table<S, K, V> = Table(
    data: map<S, map<K, V>>,
    sectionList: seq<S>,
    keyList: map<S, seq<K>>,
    sectionComments: map<S, V>,
    keyComments: map<S, map<K, V>>)
  {
    ghost predicate HasKey(s: S, k: K) {
      s in data && k in data[s]
    }
  }

  function Empty<S, K, V>(): Table<S, K, V> {
    Table(map[], [], map[], map[], map[])
  }

  /** `SetValue` on a non-blank section and key. */
  function Put<S(==), K(==), V>(t: Table<S, K, V>, s: S, k: K, v: V): Table<S, K, V> {
    var row := if s in t.data then t.data[s] else map[];
    var keys := if s in t.keyList then t.keyList[s] else [];
    t.(data := t.data[s := row[k := v]],
       sectionList := if s in t.data then t.sectionList else t.sectionList + [s],
       keyList := if k in row then t.keyList else t.keyList[s := keys + [k]])
  }

  /** `SetSectionComments` with a non-blank comment. */
  function PutSectionComment<S(==), K(==), V>(t: Table<S, K, V>, s: S, c: V): Table<S, K, V> {
    t.(sectionComments := t.sectionComments[s := c])
  }

  /** `SetKeyComments` with a non-blank comment. */
  function PutKeyComment<S(==), K(==), V>(t: Table<S, K, V>, s: S, k: K, c: V): Table<S, K, V> {
    var row := if s in t.keyComments then t.keyComments[s] else map[];
    t.(keyComments := t.keyComments[s := row[k := c]])
  }

  function SectionComment<S(==), K(==), V>(t: Table<S, K, V>, s: S, none: V): V {
    if s in t.sectionComments then t.sectionComments[s] else none
  }

  function KeyComment<S(==), K(==), V>(t: Table<S, K, V>, s: S, k: K, none: V): V {
    if s in t.keyComments && k in t.keyComments[s] then t.keyComments[s][k] else none
  }

  /** The lists and the maps name the same sections and keys, each once. */
  ghost predicate Consistent<S(!new), K(!new), V(!new)>(t: Table<S, K, V>) {
    && NoDup(t.sectionList)
    && t.data.Keys == t.keyList.Keys
    && (forall s :: s in t.data <==> s in t.sectionList)
    && (forall s :: s in t.data ==> RowConsistent(t.data[s], t.keyList[s]))
  }

  ghost predicate RowConsistent<K(!new), V>(row: map<K, V>, keys: seq<K>) {
    keys != [] && NoDup(keys) && forall k :: k in row <==> k in keys
  }

  /** Adds the entry `k` of section `s` of `src` to `t`, with its comment if it has one. */
  ghost function AddKey<S(!new), K(!new), V(!new)>(t: Table<S, K, V>, src: Table<S, K, V>, s: S, k: K, none: V): Table<S, K, V>
    requires s in src.data && k in src.data[s]
  {
    var t' := Put(t, s, k, src.data[s][k]);
    var c := KeyComment(src, s, k, none);
    if c == none then t' else PutKeyComment(t', s, k, c)
  }

  ghost function AddKeys<S(!new), K(!new), V(!new)>(t: Table<S, K, V>, src: Table<S, K, V>, s: S, keys: seq<K>, none: V): Table<S, K, V>
    requires s in src.data && forall k :: k in keys ==> k in src.data[s]
    decreases |keys|
  {
    if keys == [] then t
    else
      assert keys[0] in keys && forall k :: k in keys[1..] ==> k in keys;
      AddKeys(AddKey(t, src, s, keys[0], none), src, s, keys[1..], none)
  }

  ghost function AddSection<S(!new), K(!new), V(!new)>(t: Table<S, K, V>, src: Table<S, K, V>, s: S, none: V): Table<S, K, V>
    requires s in src.data && s in src.keyList && forall k :: k in src.keyList[s] ==> k in src.data[s]
  {
    var c := SectionComment(src, s, none);
    AddKeys(if c == none then t else PutSectionComment(t, s, c), src, s, src.keyList[s], none)
  }

  /** Every section of `ss` is a section of `src`, with its keys. */
  ghost predicate Listed<S(!new), K(!new), V(!new)>(src: Table<S, K, V>, ss: seq<S>) {
    forall s :: s in ss ==> s in src.data && s in src.keyList && forall k :: k in src.keyList[s] ==> k in src.data[s]
  }

  /** Adds whole sections of `src`, in the order given. */
  ghost function AddSections<S(!new), K(!new), V(!new)>(t: Table<S, K, V>, src: Table<S, K, V>, ss: seq<S>, none: V): Table<S, K, V>
    requires Listed(src, ss)
    decreases |ss|
  {
    if ss == [] then t
    else
      assert ss[0] in ss && forall s :: s in ss[1..] ==> s in ss;
      AddSections(AddSection(t, src, ss[0], none), src, ss[1..], none)
  }

  // ---- rebuilding a consistent table ----

  /** In `t`, section `s` holds exactly the first `j` entries it has in `src`. */
  ghost predicate RowData<S(!new), K(!new), V(!new)>(t: Table<S, K, V>, src: Table<S, K, V>, s: S, j: nat) {
    && s in src.data && s in src.keyList && j <= |src.keyList[s]|
    && (s in t.data <==> j > 0) && (s in t.keyList <==> j > 0)
    && (j > 0 ==>
          && t.keyList[s] == src.keyList[s][..j]
          && (forall k :: k in t.data[s] <==> k in src.keyList[s][..j])
          && (forall k :: k in src.keyList[s][..j] ==> k in src.data[s] && t.data[s][k] == src.data[s][k]))
  }

  /** In `t`, exactly the first `j` entries of section `s` have the comments they have in `src`. */
  ghost predicate RowComments<S(!new), K(!new), V(!new)>(t: Table<S, K, V>, src: Table<S, K, V>, s: S, j: nat, none: V) {
    && s in src.keyList && j <= |src.keyList[s]|
    && forall k :: KeyComment(t, s, k, none) == if k in src.keyList[s][..j] then KeyComment(src, s, k, none) else none
  }

  ghost predicate RowPrefix<S(!new), K(!new), V(!new)>(t: Table<S, K, V>, src: Table<S, K, V>, s: S, j: nat, none: V) {
    RowData(t, src, s, j) && RowComments(t, src, s, j, none)
  }

  /** `t'` has the data of `t` outside section `s`. */
  ghost predicate OtherData<S(!new), K(!new), V(!new)>(t: Table<S, K, V>, t': Table<S, K, V>, s: S) {
    && (forall u :: u != s ==> (u in t'.data <==> u in t.data) && (u in t'.keyList <==> u in t.keyList))
    && (forall u :: u != s && u in t.data ==> t'.data[u] == t.data[u])
    && (forall u :: u != s && u in t.keyList ==> t'.keyList[u] == t.keyList[u])
  }

  /** `t'` has the comments of `t` outside section `s`. */
  ghost predicate OtherComments<S(!new), K(!new), V(!new)>(t: Table<S, K, V>, t': Table<S, K, V>, s: S) {
    && (forall u :: u != s ==> (u in t'.keyComments <==> u in t.keyComments))
    && (forall u :: u != s && u in t.keyComments ==> t'.keyComments[u] == t.keyComments[u])
    && (forall u :: u != s ==> (u in t'.sectionComments <==> u in t.sectionComments))
    && (forall u :: u != s && u in t.sectionComments ==> t'.sectionComments[u] == t.sectionComments[u])
  }

  ghost predicate OnlySection<S(!new), K(!new), V(!new)>(t: Table<S, K, V>, t': Table<S, K, V>, s: S) {
    OtherData(t, t', s) && OtherComments(t, t', s)
  }

  lemma PutRow<S(!new), K(!new), V(!new)>(t: Table<S, K, V>, src: Table<S, K, V>, s: S, j: nat)
    requires RowData(t, src, s, j) && j < |src.keyList[s]| && RowConsistent(src.data[s], src.keyList[s])
    ensures src.keyList[s][j] in src.data[s]
    ensures var k := src.keyList[s][j]; var t' := Put(t, s, k, src.data[s][k]);
            && RowData(t', src, s, j + 1) && OtherData(t, t', s)
            && t'.sectionList == (if j == 0 then t.sectionList + [s] else t.sectionList)
  {
    var keys := src.keyList[s];
    assert keys[..j + 1] == keys[..j] + [keys[j]];
    assert keys[j] in keys && keys[j] !in keys[..j];
  }

  lemma CommentRow<S(!new), K(!new), V(!new)>(t: Table<S, K, V>, t1: Table<S, K, V>, src: Table<S, K, V>, s: S, j: nat, none: V)
    requires RowComments(t, src, s, j, none) && j < |src.keyList[s]| && NoDup(src.keyList[s])
    requires t1.keyComments == t.keyComments && t1.sectionComments == t.sectionComments
    ensures var k := src.keyList[s][j]; var c := KeyComment(src, s, k, none);
            var t' := if c == none then t1 else PutKeyComment(t1, s, k, c);
            && RowComments(t', src, s, j + 1, none) && OtherComments(t, t', s)
            && t'.sectionComments == t.sectionComments
  {
    var keys := src.keyList[s];
    var k := keys[j];
    assert keys[..j + 1] == keys[..j] + [k];
    assert k !in keys[..j];
    var c := KeyComment(src, s, k, none);
    var t' := if c == none then t1 else PutKeyComment(t1, s, k, c);
    assert KeyComment(t, s, k, none) == none;
    forall x ensures KeyComment(t', s, x, none) == if x in keys[..j + 1] then KeyComment(src, s, x, none) else none {
      assert KeyComment(t, s, x, none) == if x in keys[..j] then KeyComment(src, s, x, none) else none;
      assert x != k ==> KeyComment(t', s, x, none) == KeyComment(t, s, x, none);
    }
  }

  lemma AddKeyPrefix<S(!new), K(!new), V(!new)>(t: Table<S, K, V>, src: Table<S, K, V>, s: S, j: nat, none: V)
    requires RowPrefix(t, src, s, j, none) && j < |src.keyList[s]|
    requires RowConsistent(src.data[s], src.keyList[s])
    ensures src.keyList[s][j] in src.data[s]
    ensures var t' := AddKey(t, src, s, src.keyList[s][j], none);
            && RowPrefix(t', src, s, j + 1, none) && OnlySection(t, t', s)
            && t'.sectionList == (if j == 0 then t.sectionList + [s] else t.sectionList)
            && t'.sectionComments == t.sectionComments
  {
    PutRow(t, src, s, j);
    CommentRow(t, Put(t, s, src.keyList[s][j], src.data[s][src.keyList[s][j]]), src, s, j, none);
  }

  lemma {:induction false} AddKeysPrefix<S(!new), K(!new), V(!new)>(t: Table<S, K, V>, src: Table<S, K, V>, s: S, j: nat, none: V)
    requires RowPrefix(t, src, s, j, none) && RowConsistent(src.data[s], src.keyList[s])
    requires forall k :: k in src.keyList[s][j..] ==> k in src.data[s]
    ensures var t' := AddKeys(t, src, s, src.keyList[s][j..], none);
            && RowPrefix(t', src, s, |src.keyList[s]|, none) && OnlySection(t, t', s)
            && t'.sectionList == (if j == 0 then t.sectionList + [s] else t.sectionList)
            && t'.sectionComments == t.sectionComments
    decreases |src.keyList[s]| - j
  {
    var keys := src.keyList[s];
    if j >= |keys| {
    } else {
      var t1 := AddKey(t, src, s, keys[j], none);
      AddKeyPrefix(t, src, s, j, none);
      assert keys[j..][0] == keys[j] && keys[j..][1..] == keys[j + 1..];
      AddKeysPrefix(t1, src, s, j + 1, none);
    }
  }

  lemma AddSectionWhole<S(!new), K(!new), V(!new)>(t: Table<S, K, V>, src: Table<S, K, V>, s: S, none: V)
    requires RowPrefix(t, src, s, 0, none) && RowConsistent(src.data[s], src.keyList[s])
    requires SectionComment(t, s, none) == none
    ensures var t' := AddSection(t, src, s, none);
            && RowPrefix(t', src, s, |src.keyList[s]|, none) && OnlySection(t, t', s)
            && t'.sectionList == t.sectionList + [s]
            && SectionComment(t', s, none) == SectionComment(src, s, none)
  {
    var c := SectionComment(src, s, none);
    var t0 := if c == none then t else PutSectionComment(t, s, c);
    assert RowData(t0, src, s, 0);
    assert RowComments(t0, src, s, 0, none) by {
      forall k ensures KeyComment(t0, s, k, none) == KeyComment(t, s, k, none) {}
    }
    assert src.keyList[s][0..] == src.keyList[s];
    AddKeysPrefix(t0, src, s, 0, none);
  }

  /** What `t` holds of section `s` when the first `n` sections of `src` have been added. */
  ghost predicate SectionAt<S(!new), K(!new), V(!new)>(t: Table<S, K, V>, src: Table<S, K, V>, s: S, n: nat, none: V)
    requires n <= |src.sectionList|
  {
    var done := s in src.sectionList[..n];
    && s in src.keyList
    && RowPrefix(t, src, s, if done then |src.keyList[s]| else 0, none)
    && SectionComment(t, s, none) == if done then SectionComment(src, s, none) else none
  }

  /** The first `n` sections of `src` are in `t` and nothing else is. */
  ghost predicate SectionPrefix<S(!new), K(!new), V(!new)>(t: Table<S, K, V>, src: Table<S, K, V>, n: nat, none: V)
    requires n <= |src.sectionList|
  {
    && t.sectionList == src.sectionList[..n]
    && (forall s {:trigger SectionAt(t, src, s, n, none)} :: s in src.sectionList ==> SectionAt(t, src, s, n, none))
    && (forall s :: s !in src.sectionList ==> s !in t.data && s !in t.keyList)
  }

  lemma SectionFrame<S(!new), K(!new), V(!new)>(t: Table<S, K, V>, t': Table<S, K, V>, src: Table<S, K, V>, s: S, u: S, n: nat, none: V)
    requires n < |src.sectionList| && src.sectionList[n] == s && u != s
    requires SectionAt(t, src, u, n, none) && OnlySection(t, t', s)
    ensures SectionAt(t', src, u, n + 1, none)
  {
    var ss := src.sectionList;
    assert ss[..n + 1] == ss[..n] + [s];
    assert forall k :: KeyComment(t', u, k, none) == KeyComment(t, u, k, none);
  }

  lemma AddSectionPrefix<S(!new), K(!new), V(!new)>(t: Table<S, K, V>, src: Table<S, K, V>, n: nat, none: V)
    requires NoDup(src.sectionList) && n < |src.sectionList| && SectionPrefix(t, src, n, none)
    requires var s := src.sectionList[n];
             s in src.data && s in src.keyList && RowConsistent(src.data[s], src.keyList[s])
    ensures SectionPrefix(AddSection(t, src, src.sectionList[n], none), src, n + 1, none)
  {
    var ss := src.sectionList;
    var s := ss[n];
    assert s in ss && s !in ss[..n];
    assert ss[..n + 1] == ss[..n] + [s];
    assert SectionAt(t, src, s, n, none);
    AddSectionWhole(t, src, s, none);
    var t' := AddSection(t, src, s, none);
    forall u | u in ss ensures SectionAt(t', src, u, n + 1, none) {
      if u != s {
        assert SectionAt(t, src, u, n, none);
        SectionFrame(t, t', src, s, u, n, none);
      }
    }
  }

  lemma {:induction false} AddSectionsPrefix<S(!new), K(!new), V(!new)>(t: Table<S, K, V>, src: Table<S, K, V>, n: nat, none: V)
    requires Consistent(src) && n <= |src.sectionList| && SectionPrefix(t, src, n, none)
    requires Listed(src, src.sectionList) && Listed(src, src.sectionList[n..])
    ensures SectionPrefix(AddSections(t, src, src.sectionList[n..], none), src, |src.sectionList|, none)
    decreases |src.sectionList| - n
  {
    var ss := src.sectionList;
    if n >= |ss| {
    } else {
      AddSectionPrefix(t, src, n, none);
      assert ss[n..][0] == ss[n] && ss[n..][1..] == ss[n + 1..];
      AddSectionsPrefix(AddSection(t, src, ss[n], none), src, n + 1, none);
    }
  }

  lemma WholeRow<S(!new), K(!new), V(!new)>(t: Table<S, K, V>, src: Table<S, K, V>, s: S, none: V)
    requires s in src.sectionList && SectionAt(t, src, s, |src.sectionList|, none)
    requires s in src.data && RowConsistent(src.data[s], src.keyList[s])
    ensures s in t.data && s in t.keyList && t.data[s] == src.data[s] && t.keyList[s] == src.keyList[s]
    ensures SectionComment(t, s, none) == SectionComment(src, s, none)
    ensures forall k :: k in src.keyList[s] ==> KeyComment(t, s, k, none) == KeyComment(src, s, k, none)
  {
    assert src.sectionList[..|src.sectionList|] == src.sectionList;
    assert src.keyList[s][..|src.keyList[s]|] == src.keyList[s];
  }

  /** The two tables agree on everything they list. */
  ghost predicate Same<S(!new), K(!new), V(!new)>(t: Table<S, K, V>, src: Table<S, K, V>, none: V) {
    && t.sectionList == src.sectionList && t.data == src.data && t.keyList == src.keyList
    && (forall s :: s in src.sectionList ==> SectionComment(t, s, none) == SectionComment(src, s, none))
    && (forall s, k :: s in src.sectionList && s in src.keyList && k in src.keyList[s] ==>
          KeyComment(t, s, k, none) == KeyComment(src, s, k, none))
  }

  lemma WholePrefix<S(!new), K(!new), V(!new)>(t: Table<S, K, V>, src: Table<S, K, V>, none: V)
    requires Consistent(src) && SectionPrefix(t, src, |src.sectionList|, none)
    ensures Same(t, src, none)
  {
    var ss := src.sectionList;
    assert ss[..|ss|] == ss;
    forall s | s in ss
      ensures s in t.data && s in t.keyList && t.data[s] == src.data[s] && t.keyList[s] == src.keyList[s]
      ensures SectionComment(t, s, none) == SectionComment(src, s, none)
      ensures forall k :: k in src.keyList[s] ==> KeyComment(t, s, k, none) == KeyComment(src, s, k, none)
    {
      assert SectionAt(t, src, s, |ss|, none);
      WholeRow(t, src, s, none);
    }
  }

  /**
   Adding every section of a consistent table to the empty one gives back its sections,
   keys and values in order, and the comments of all its sections and keys.
   */
  lemma Rebuild<S(!new), K(!new), V(!new)>(src: Table<S, K, V>, none: V)
    requires Consistent(src) && Listed(src, src.sectionList)
    ensures Same(AddSections(Empty(), src, src.sectionList, none), src, none)
  {
    var ss := src.sectionList;
    var t0: Table<S, K, V> := Empty();
    forall s | s in ss ensures SectionAt(t0, src, s, 0, none) {}
    assert ss[0..] == ss;
    AddSectionsPrefix(t0, src, 0, none);
    WholePrefix(AddSections(t0, src, ss, none), src, none);
  }
}
