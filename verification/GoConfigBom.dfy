/**
 The one well-formed configuration that is not read back: the reader takes a first key that
 starts with a byte order mark for a file that starts with one. Whatever the rest of the file
 then looks like, that key is never stored.
 */
module GoConfigBom {
  import opened Text
  import opened ConfigTable
  import opened GoConfig
  import opened GoConfigRoundTrip

  // ---- where trimming cuts ----

  lemma {:induction false} TrimLeftCut(s: string) returns (n: nat)
    ensures n <= |s| && TrimLeft(s) == s[n..] && (n < |s| ==> !IsSpace(s[n])) && forall i :: 0 <= i < n ==> IsSpace(s[i])
  {
    if s != [] && IsSpace(s[0]) {
      var m := TrimLeftCut(s[1..]);
      n := m + 1;
      assert s[1..][m..] == s[n..];
      assert forall i :: 0 < i < n ==> s[i] == s[1..][i - 1];
    } else {
      n := 0;
    }
  }

  lemma {:induction false} TrimRightCut(s: string) returns (m: nat)
    ensures m <= |s| && TrimRight(s) == s[..m] && forall i :: m <= i < |s| ==> IsSpace(s[i])
  {
    if s != [] && IsSpace(s[|s| - 1]) {
      var t := s[..|s| - 1];
      m := TrimRightCut(t);
      assert t[..m] == s[..m];
      assert forall i :: m <= i < |t| ==> s[i] == t[i];
    } else {
      m := |s|;
      assert s[..m] == s;
    }
  }

  /** A trimmed string is a part of the string; what is not blank stays. */
  lemma TrimCut(s: string, a: nat) returns (n: nat, m: nat)
    requires a < |s| && !IsSpace(s[a])
    ensures n <= a < m <= |s| && Trim(s) == s[n..m] && forall i :: 0 <= i < n ==> IsSpace(s[i])
    ensures !IsSpace(s[n])
  {
    n := TrimLeftCut(s);
    assert n <= a;
    var t := s[n..];
    assert t[a - n] == s[a];
    var e := TrimRightCut(t);
    assert a - n < e;
    m := n + e;
    assert t[..e] == s[n..m];
  }

  lemma TrimNoLonger(s: string)
    ensures |Trim(s)| <= |s|
    ensures s != "" && IsSpace(s[|s| - 1]) ==> |Trim(s)| < |s|
  {
    var n := TrimLeftCut(s);
    var t := s[n..];
    var e := TrimRightCut(t);
    if s != "" && IsSpace(s[|s| - 1]) && t != "" {
      assert t[|t| - 1] == s[|s| - 1];
      assert TrimRight(t) == TrimRight(t[..|t| - 1]);
      var e' := TrimRightCut(t[..|t| - 1]);
    }
  }

  // ---- the key of the first line ----

  lemma {:induction false} NotBefore(s: string, sub: string, i: nat, j: nat)
    requires i <= j && j <= |s| && IndexFrom(s, sub, i) >= 0 && j < IndexFrom(s, sub, i)
    ensures !At(s, sub, j)
    decreases j - i
  {
    if i >= j {
    } else {
      NotBefore(s, sub, i + 1, j);
    }
  }

  /** What stands before the first occurrence does not contain one. */
  lemma BeforeFirst(s: string, sub: string)
    requires sub != "" && Index(s, sub) >= 0
    ensures !Contains(s[..Index(s, sub)], sub)
  {
    var pos := Index(s, sub);
    forall j | 0 <= j <= pos ensures !At(s[..pos], sub, j) {
      if j + |sub| <= pos {
        assert s[..pos][j..j + |sub|] == s[j..j + |sub|];
        NotBefore(s, sub, 0, j);
      }
    }
  }

  lemma QuoteInside(k: string, quote: string, full: string, n: nat)
    requires k != "" && !HasSep(k) && quote in {"\"", "`", TRIPLE}
    requires |k| - 1 < |full| && full[..|k| - 1] == k[1..] && full[|k| - 1] in {' ', '='}
    requires n + |quote| <= |full| && full[n..n + |quote|] == quote && n <= |k| - 1
    ensures Contains(k, quote)
  {
    var r := k[1..];
    assert forall i :: n <= i < n + |quote| ==> full[i] == quote[i - n];
    assert n + |quote| <= |r|;
    assert forall i :: 0 <= i < |r| ==> full[i] == r[i];
    assert k[n + 1..n + 1 + |quote|] == full[n..n + |quote|];
    assert At(k, quote, n + 1);
  }

  /** Without its first character the key cannot be what the reader finds. */
  lemma FirstKeyDiffers(k: string, pretty: bool, w: string)
    requires k != "" && !HasSep(k)
    ensures var line := Trim(k[1..] + EqualSign(pretty) + w);
            line != "" && (SplitKey(line).Some? ==> SplitKey(line).value.0 != k)
  {
    var r, sp := k[1..], if pretty then " " else "";
    var full := r + EqualSign(pretty) + w;
    var a := |r + sp|;
    assert full[..a] == r + sp && full[a] == '=';
    var n, m := TrimCut(full, a);
    var line := full[n..m];
    if KeyQuote(line) != "" {
      QuotedKeyDiffers(k, full, n, m);
    } else {
      PlainKeyDiffers(k, r + sp, full, n, m);
    }
  }

  lemma PlainKeyDiffers(k: string, before: string, full: string, n: nat, m: nat)
    requires k != "" && !HasSep(k) && (before == k[1..] || before == k[1..] + " ")
    requires |before| < |full| && full[..|before|] == before && full[|before|] == '='
    requires n <= |before| < m <= |full| && KeyQuote(full[n..m]) == ""
    ensures SplitKey(full[n..m]).Some? ==> SplitKey(full[n..m]).value.0 != k
  {
    var line, i := full[n..m], |before| - n;
    assert line[i] == '=' && line[..i] == before[n..];
    assert !HasSep(before);
    assert forall c :: c in before[n..] ==> c in before;
    IndexSepAt(line, i);
    TrimNoLonger(before[n..]);
    assert before[n..] != "" ==> before[n..][|before[n..]| - 1] == before[|before| - 1];
  }

  lemma QuotedKeyDiffers(k: string, full: string, n: nat, m: nat)
    requires k != "" && !HasSep(k)
    requires |k| - 1 < |full| && full[..|k| - 1] == k[1..] && full[|k| - 1] in {' ', '='}
    requires n < m <= |full| && n <= |k| && full[n..m] != "" && KeyQuote(full[n..m]) != ""
    requires n == |k| ==> full[n] == '='
    ensures SplitKey(full[n..m]).Some? ==> SplitKey(full[n..m]).value.0 != k
  {
    var line := full[n..m];
    var q := KeyQuote(line);
    assert q in {"\"", "`", TRIPLE} && line[..|q|] == q;
    assert full[n..n + |q|] == line[..|q|];
    assert line[0] == full[n];
    QuoteInside(k, q, full, n);
    BetweenQuotes(line, q, k);
  }

  /** What stands between the quotes does not hold the quote. */
  lemma BetweenQuotes(line: string, q: string, k: string)
    requires line != "" && KeyQuote(line) == q != "" && Contains(k, q)
    ensures SplitKey(line).Some? ==> SplitKey(line).value.0 != k
  {
    var rest := line[|q|..];
    if Index(rest, q) >= 0 {
      BeforeFirst(rest, q);
      var pos := Index(rest, q);
      assert rest[..pos] == line[|q|..pos + |q|];
    }
  }

  // ---- the key is never stored ----

  predicate Marked(k: string) {
    k != "" && k[0] == BOM
  }

  /** The DEFAULT section does not have the key. */
  predicate Without(st: Reader, k: string) {
    DEFAULT_SECTION in st.cfg.data ==> k !in st.cfg.data[DEFAULT_SECTION]
  }

  /** Not an entry of DEFAULT with this key. */
  predicate Avoids(st: Reader, line: string, k: string) {
    line != "" && !IsHeader(line) && SplitKey(line).Some? && SplitKey(line).value.0 == k ==>
      SectionName(st.section) != DEFAULT_SECTION
  }

  lemma LineWithout(st: Reader, line: string, k: string)
    requires Marked(k) && Without(st, k) && Avoids(st, line, k)
    ensures var r := ReadLine(st, line);
            r.Ok? ==> Without(r.st, k) && (!IsHeader(line) || IsComment(line) ==> r.st.section == st.section)
  {
  }

  /** The key that the reader finds in the line of an entry. */
  lemma EntryKey(k: string, v: string, n: nat, pretty: bool)
    requires EntryOk(k, v, n)
    ensures var line := Trim(WriteKey(k) + EqualSign(pretty) + WriteValue(v));
            && line != "" && !IsHeader(line) && SplitKey(line).Some?
            && SplitKey(line).value.0 == if k[0] == '#' then "-" else k
  {
    WriteKeyVisible(k);
    ValueBack(v);
    var p, q := EntryLine(WriteKey(k), WriteValue(v), pretty);
    EntryLooks(k, v, p, q, n);
    SplitWritten(k, p, q);
  }

  /** The reader goes on from `st'` in the same section, or has failed. */
  ghost predicate GoesOn(st: Reader, text: string, st': Reader, rest: string, k: string) {
    ReadText(st, text).Err? || (ReadText(st, text) == ReadText(st', rest) && Without(st', k) && st'.section == st.section)
  }

  lemma CommentGoesOn(st: Reader, comment: string, rest: string, k: string) returns (st': Reader)
    requires CommentOk(comment) && Without(st, k)
    ensures ReadText(st, CommentText(comment) + rest) == ReadText(st', rest)
    ensures Without(st', k) && st'.section == st.section
  {
    if comment == "" {
      st' := st;
      assert CommentText(comment) + rest == rest;
    } else {
      st' := st.(comments := JoinComments(st.comments, comment));
      assert CommentText(comment) + rest == comment + "\n" + rest;
      CommentRead(st, comment, rest);
    }
  }

  lemma EntryGoesOn(st: Reader, x: string, v: string, n: nat, pretty: bool, rest: string, k: string) returns (st': Reader)
    requires EntryOk(x, v, n) && Marked(k) && Without(st, k)
    requires x == k ==> SectionName(st.section) != DEFAULT_SECTION
    ensures GoesOn(st, WriteKey(x) + EqualSign(pretty) + WriteValue(v) + "\n" + rest, st', rest, k)
  {
    var line := WriteKey(x) + EqualSign(pretty) + WriteValue(v);
    EntryKey(x, v, n, pretty);
    WriteKeyVisible(x);
    LineRead(st, line, rest);
    LineWithout(st, Trim(line), k);
    st' := ReadLine(st, Trim(line)).st;
  }

  lemma {:induction false} KeysGoOn(
      st: Reader, c: Config, s: string, keys: seq<string>, n: nat, pretty: bool, rest: string, k: string) returns (st': Reader)
    requires Keys(c, s, keys) && KeysOk(c, s, keys, n) && Marked(k) && Without(st, k) && s != ""
    requires k in keys ==> SectionName(st.section) != DEFAULT_SECTION
    ensures GoesOn(st, KeysText(c, s, keys, pretty) + rest, st', rest, k)
    decreases |keys|
  {
    if keys == [] {
      st' := st;
      assert KeysText(c, s, keys, pretty) + rest == rest;
    } else {
      var x, comment := keys[0], KeyComment(c, s, keys[0], "");
      assert x in keys && forall y :: y in keys[1..] ==> y in keys;
      var v, more := c.data[s][x], KeysText(c, s, keys[1..], pretty) + rest;
      var line := WriteKey(x) + EqualSign(pretty) + WriteValue(v);
      FirstEntry(c, s, keys, pretty, rest, CommentText(comment), line, more);
      var st1 := CommentGoesOn(st, comment, line + "\n" + more, k);
      var st2 := EntryGoesOn(st1, x, v, n, pretty, more, k);
      if ReadText(st1, line + "\n" + more).Err? {
        st' := st;
      } else {
        st' := KeysGoOn(st2, c, s, keys[1..], if x[0] == '#' then n + 1 else n, pretty, rest, k);
      }
    }
  }

  lemma FirstEntry(c: Config, s: string, keys: seq<string>, pretty: bool, rest: string, comment: string, line: string, more: string)
    requires Keys(c, s, keys) && keys != [] && s != "" && keys[0] in keys && keys[0] != KEEPER
    requires Keys(c, s, keys[1..]) && more == KeysText(c, s, keys[1..], pretty) + rest
    requires comment == CommentText(KeyComment(c, s, keys[0], ""))
    requires line == WriteKey(keys[0]) + EqualSign(pretty) + WriteValue(c.data[s][keys[0]])
    ensures KeysText(c, s, keys, pretty) + rest == comment + (line + "\n" + more)
  {
    var tail := KeysText(c, s, keys[1..], pretty);
    assert comment + (line + "\n") + tail + rest == comment + (line + "\n" + (tail + rest));
  }

  /** The reader goes on from `st'`, or has failed. */
  ghost predicate Passes(st: Reader, text: string, st': Reader, rest: string, k: string) {
    ReadText(st, text).Err? || (ReadText(st, text) == ReadText(st', rest) && Without(st', k))
  }

  lemma HeaderPasses(st: Reader, s: string, rest: string, k: string) returns (st': Reader)
    requires s != "" && s != DEFAULT_SECTION && Trimmed(s) && OneLine(s) && Marked(k) && Without(st, k)
    ensures ReadText(st, HeaderText(s) + rest) == ReadText(st', rest) && Without(st', k) && st'.section == s
  {
    var line := "[" + s + "]";
    TrimKeeps(line);
    TrimKeeps(s);
    assert line[1..|line| - 1] == s;
    LineRead(st, line, rest);
    LineWithout(st, line, k);
    st' := ReadLine(st, line).st;
  }

  lemma SectionPasses(st: Reader, c: Config, s: string, pretty: bool, rest: string, k: string) returns (st': Reader)
    requires s in c.data && s in c.keyList && Keys(c, s, c.keyList[s]) && c.keyList[s] != []
    requires s != DEFAULT_SECTION && SectionOk(c, s) && Marked(k) && Without(st, k)
    ensures Passes(st, SectionText(c, s, pretty) + rest, st', rest, k)
  {
    var keys, comment := c.keyList[s], SectionComment(c, s, "");
    var body := KeysText(c, s, keys, pretty) + ("\n" + rest);
    SectionSplit(CommentText(comment), HeaderText(s), KeysText(c, s, keys, pretty), rest);
    var st1 := CommentGoesOn(st, comment, HeaderText(s) + body, k);
    var st2 := HeaderPasses(st1, s, body, k);
    KeeperFirst(st2.cfg, c, s, pretty);
    st' := KeysGoOn(st2, c, s, keys[1..], 1, pretty, "\n" + rest, k);
    BlankRead(st', rest);
  }

  lemma {:induction false} SectionsWithout(st: Reader, c: Config, ss: seq<string>, pretty: bool, k: string)
    requires Sections(c, ss) && Listed(c, ss) && Marked(k) && Without(st, k)
    requires forall s :: s in ss ==> c.keyList[s] != [] && s != DEFAULT_SECTION && SectionOk(c, s)
    ensures var r := ReadText(st, SectionsText(c, ss, pretty)); r.Ok? ==> Without(r.st, k)
    decreases |ss|
  {
    if ss == [] {
      assert ReadText(st, "") == Ok(st);
    } else {
      assert ss[0] in ss && forall s :: s in ss[1..] ==> s in ss;
      var rest := SectionsText(c, ss[1..], pretty);
      var st1 := SectionPasses(st, c, ss[0], pretty, rest, k);
      if ReadText(st, SectionText(c, ss[0], pretty) + rest).Ok? {
        SectionsWithout(st1, c, ss[1..], pretty, k);
      }
    }
  }

  // ---- the whole file ----

  lemma FirstLine(k: string, sign: string, w: string, keys: string, rest: string)
    requires Marked(k)
    ensures var text := "" + ("" + ("" + (k + sign + w + "\n") + keys + "\n")) + rest;
            text[0] == BOM && text[1..] == k[1..] + sign + w + "\n" + (keys + ("\n" + rest))
  {
    var text := k + (sign + w + "\n" + (keys + ("\n" + rest)));
    assert "" + ("" + ("" + (k + sign + w + "\n") + keys + "\n")) + rest == text;
    assert text[1..] == k[1..] + (sign + w + "\n" + (keys + ("\n" + rest)));
  }

  /** The text of a file whose first key starts with a byte order mark, without it. */
  lemma TextAfterBom(c: Config, pretty: bool, more: string)
    requires WellFormed(c) && StartsWithBom(c) && Sections(c, c.sectionList) && Sections(c, c.sectionList[1..])
    requires Keys(c, DEFAULT_SECTION, c.keyList[DEFAULT_SECTION][1..])
    requires more == KeysText(c, DEFAULT_SECTION, c.keyList[DEFAULT_SECTION][1..], pretty)
                     + ("\n" + SectionsText(c, c.sectionList[1..], pretty))
    ensures var k := c.keyList[DEFAULT_SECTION][0];
            && k in c.data[DEFAULT_SECTION] && KeyOk(k)
            && WithoutBom(Save(c, pretty))
               == k[1..] + EqualSign(pretty) + WriteValue(c.data[DEFAULT_SECTION][k]) + "\n" + more
  {
    var s, keys := DEFAULT_SECTION, c.keyList[DEFAULT_SECTION];
    var k := keys[0];
    assert s in c.sectionList && SectionOk(c, s) && k in keys;
    var w := WriteValue(c.data[s][k]);
    FirstLine(k, EqualSign(pretty), w, KeysText(c, s, keys[1..], pretty), SectionsText(c, c.sectionList[1..], pretty));
    assert KeyText(c, s, k, pretty) == "" + (k + EqualSign(pretty) + w + "\n");
    assert KeysText(c, s, keys, pretty) == KeyText(c, s, k, pretty) + KeysText(c, s, keys[1..], pretty);
    assert SectionText(c, s, pretty) == "" + ("" + (KeysText(c, s, keys, pretty) + "\n"));
    assert Save(c, pretty) == SectionText(c, s, pretty) + SectionsText(c, c.sectionList[1..], pretty);
  }

  /** Whatever the first line is taken for, it does not store its key. */
  lemma FirstLineWithout(k: string, v: string, pretty: bool, more: string) returns (st': Reader)
    requires KeyOk(k) && Marked(k) && !HasSep(k) && OneLine(v)
    ensures Passes(Reader(Empty(), DEFAULT_SECTION, 1, ""), k[1..] + EqualSign(pretty) + WriteValue(v) + "\n" + more, st', more, k)
  {
    var st, w := Reader(Empty(), DEFAULT_SECTION, 1, ""), WriteValue(v);
    var line := k[1..] + EqualSign(pretty) + w;
    assert OneLine(w) && forall x :: x in k[1..] ==> x in k;
    FirstKeyDiffers(k, pretty, w);
    LineRead(st, line, more);
    LineWithout(st, Trim(line), k);
    st' := ReadLine(st, Trim(line)).st;
  }

  lemma FirstEntryOk(c: Config)
    requires WellFormed(c) && StartsWithBom(c)
    ensures DEFAULT_SECTION in c.data && DEFAULT_SECTION in c.keyList
    ensures var k := c.keyList[DEFAULT_SECTION][0];
            && k in c.data[DEFAULT_SECTION] && KeyOk(k) && Marked(k) && !HasSep(k) && OneLine(c.data[DEFAULT_SECTION][k])
  {
    var s := DEFAULT_SECTION;
    assert s in c.sectionList && SectionOk(c, s) && RowConsistent(c.data[s], c.keyList[s]);
    assert c.keyList[s][0] in c.keyList[s];
  }

  lemma BomKeyLost(c: Config, pretty: bool)
    requires WellFormed(c) && StartsWithBom(c) && Sections(c, c.sectionList)
    ensures !ReadBack(c, pretty)
  {
    FirstEntryOk(c);
    var s, keys, ss := DEFAULT_SECTION, c.keyList[DEFAULT_SECTION], c.sectionList[1..];
    var k := keys[0];
    assert forall x :: x in ss ==> x in c.sectionList;
    assert s in c.sectionList && forall x :: x in keys[1..] ==> x in keys;
    var more := KeysText(c, s, keys[1..], pretty) + ("\n" + SectionsText(c, ss, pretty));
    TextAfterBom(c, pretty, more);
    var st' := FirstLineWithout(k, c.data[s][k], pretty, more);
    if Read(Empty(), Save(c, pretty)).Ok? {
      RestWithout(st', c, keys, ss, pretty, more, k);
    }
  }

  /** Whatever the first line was taken for, the rest of the file does not store its key. */
  lemma RestWithout(st: Reader, c: Config, keys: seq<string>, ss: seq<string>, pretty: bool, more: string, k: string)
    requires WellFormed(c) && StartsWithBom(c) && Sections(c, c.sectionList)
    requires keys == c.keyList[DEFAULT_SECTION] && ss == c.sectionList[1..] && k == keys[0] && Without(st, k)
    requires Sections(c, ss) && DEFAULT_SECTION in c.data && Keys(c, DEFAULT_SECTION, keys[1..])
    requires more == KeysText(c, DEFAULT_SECTION, keys[1..], pretty) + ("\n" + SectionsText(c, ss, pretty))
    ensures ReadText(st, more).Ok? ==> Without(ReadText(st, more).st, k)
  {
    var s, tail := DEFAULT_SECTION, SectionsText(c, ss, pretty);
    assert s in c.sectionList && SectionOk(c, s) && RowConsistent(c.data[s], keys);
    assert k !in keys[1..];
    var st' := KeysGoOn(st, c, s, keys[1..], 1, pretty, "\n" + tail, k);
    if ReadText(st, more).Ok? {
      BlankRead(st', tail);
      NamedSections(c);
      SectionsWithout(st', c, ss, pretty, k);
    }
  }

  lemma NamedSections(c: Config)
    requires WellFormed(c) && c.sectionList != []
    ensures var ss := c.sectionList[1..];
            Listed(c, ss) && forall s :: s in ss ==> c.keyList[s] != [] && s != DEFAULT_SECTION && SectionOk(c, s)
  {
    var ss := c.sectionList[1..];
    forall s | s in ss ensures s in c.data && s in c.keyList && s != DEFAULT_SECTION && SectionOk(c, s) && c.keyList[s] != [] {
      var i :| 0 <= i < |ss| && ss[i] == s;
      assert c.sectionList[i + 1] == s && s in c.sectionList;
      assert RowConsistent(c.data[s], c.keyList[s]);
    }
  }

  /**
   A well-formed configuration comes back exactly when its text does not start with a byte
   order mark.
   */
  lemma RoundTripIff(c: Config, pretty: bool)
    requires WellFormed(c)
    ensures Sections(c, c.sectionList)
    ensures ReadBack(c, pretty) <==> !StartsWithBom(c)
  {
    Writable(c);
    if StartsWithBom(c) {
      BomKeyLost(c, pretty);
    } else {
      RoundTrip(c, pretty);
    }
  }

  /** A configuration whose only key is the byte order mark. */
  function BomConfig(): Config {
    Put(Empty(), DEFAULT_SECTION, [BOM], "")
  }

  /** What the configuration holds. */
  ghost predicate OnlyBom(c: Config) {
    && c.sectionList == [DEFAULT_SECTION] && DEFAULT_SECTION in c.data && DEFAULT_SECTION in c.keyList
    && c.keyList[DEFAULT_SECTION] == [[BOM]] && [BOM] in c.data[DEFAULT_SECTION]
    && c.data[DEFAULT_SECTION][[BOM]] == ""
    && SectionComment(c, DEFAULT_SECTION, "") == "" && KeyComment(c, DEFAULT_SECTION, [BOM], "") == ""
  }

  lemma BomHolds()
    ensures OnlyBom(BomConfig()) && Consistent(BomConfig())
  {
    var c := BomConfig();
    assert RowConsistent(c.data[DEFAULT_SECTION], [[BOM]]);
  }

  lemma BomKeyOk()
    ensures EntryOk([BOM], "", 1)
  {
  }

  lemma BomWellFormed(c: Config)
    requires OnlyBom(c) && Consistent(c)
    ensures WellFormed(c) && StartsWithBom(c)
  {
    BomKeyOk();
    assert [[BOM]][1..] == [] && KeysOk(c, DEFAULT_SECTION, [], 1);
    assert KeysOk(c, DEFAULT_SECTION, [[BOM]], 1);
    assert SectionOk(c, DEFAULT_SECTION);
    assert !HasSep([BOM]);
  }

  /** There is such a configuration. */
  lemma BomIsLost(pretty: bool)
    ensures var c := BomConfig(); WellFormed(c) && Sections(c, c.sectionList) && !ReadBack(c, pretty)
  {
    BomHolds();
    BomWellFormed(BomConfig());
    RoundTripIff(BomConfig(), pretty);
  }
}
