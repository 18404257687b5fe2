/** Reading back what was written: for which configurations, and that it works for all of them. */
module GoConfigRoundTrip {
  import opened Basics
  import opened Text
  import opened ConfigTable
  import opened GoConfig

  // ---- the configurations that survive ----

  predicate CommentLineOk(line: string) {
    IsComment(line) && Trimmed(line) && OneLine(line)
  }

  /** One or more comment lines, joined by line breaks. */
  predicate GoodComment(s: string)
    decreases |s|
  {
    var k := IndexChar(s, '\n');
    if k < 0 then CommentLineOk(s) else CommentLineOk(s[..k]) && GoodComment(s[k + 1..])
  }

  predicate CommentOk(s: string) {
    s == "" || GoodComment(s)
  }

  /** A value that is written raw must not look quoted; one that is written in `"` never comes back. */
  predicate ValueOk(v: string) {
    if '`' in v then '"' in v else Trimmed(v) && !(ByteLen(v) >= 6 && At(v, TRIPLE, 0))
  }

  /** A key that the reader finds again on the line the writer makes. */
  predicate KeyFound(k: string)
    requires k != ""
  {
    if HasSep(k) then '`' in k && '"' in k ==> !Contains(k, TRIPLE) && k[|k| - 1] != '"'
    else Trimmed(k) && k[0] != '"' && k[0] != '`'
  }

  /** A key that is not numbered, whose line is no comment. */
  predicate KeyOk(k: string) {
    && k != "" && k[0] != '#' && OneLine(k) && KeyFound(k)
    && (HasSep(k) || (k[0] != ';' && k != "-"))
  }

  /** The line of the entry does not look like a section header. */
  predicate NoHeader(k: string, v: string)
    requires k != ""
  {
    k[0] == '[' && !HasSep(k) && v != "" ==> v[|v| - 1] != ']' || '`' in v
  }

  /** `n` is the number that the next auto-increment key of the section gets. */
  predicate EntryOk(k: string, v: string, n: nat) {
    && k != "" && OneLine(v) && ValueOk(v)
    && if k[0] == '#' then k == "#" + Decimal(n) else KeyOk(k) && NoHeader(k, v)
  }

  predicate KeysOk(c: Config, s: string, keys: seq<string>, n: nat)
    requires s in c.data && forall k :: k in keys ==> k in c.data[s]
    decreases |keys|
  {
    keys == [] ||
    (assert keys[0] in keys && forall k :: k in keys[1..] ==> k in keys;
     && EntryOk(keys[0], c.data[s][keys[0]], n)
     && CommentOk(KeyComment(c, s, keys[0], ""))
     && KeysOk(c, s, keys[1..], if keys[0][0] == '#' then n + 1 else n))
  }

  predicate SectionOk(c: Config, s: string)
    requires s in c.data && s in c.keyList && c.keyList[s] != []
    requires forall k :: k in c.keyList[s] ==> k in c.data[s]
  {
    var keys := c.keyList[s];
    if s == DEFAULT_SECTION then SectionComment(c, s, "") == "" && KeysOk(c, s, keys, 1)
    else
      && s != "" && Trimmed(s) && OneLine(s)
      && CommentOk(SectionComment(c, s, ""))
      && keys[0] == KEEPER && c.data[s][KEEPER] == " " && KeyComment(c, s, KEEPER, "") == ""
      && KeysOk(c, s, keys[1..], 1)
  }

  /** The reader would take the first character of the file for a byte order mark. */
  predicate StartsWithBom(c: Config)
    requires c.sectionList != [] ==> c.sectionList[0] in c.keyList
  {
    && c.sectionList != [] && c.sectionList[0] == DEFAULT_SECTION
    && c.keyList[DEFAULT_SECTION] != []
    && var k := c.keyList[DEFAULT_SECTION][0];
       KeyComment(c, DEFAULT_SECTION, k, "") == "" && k != "" && k[0] == BOM && !HasSep(k)
  }

  ghost predicate WellFormed(c: Config) {
    && Consistent(c)
    && (forall s :: s in c.sectionList ==> SectionOk(c, s))
    && (forall i :: 0 < i < |c.sectionList| ==> c.sectionList[i] != DEFAULT_SECTION)
  }

  // ---- lines and comments ----

  lemma LineRead(st: Reader, line: string, rest: string)
    requires OneLine(line)
    ensures ReadText(st, line + "\n" + rest) ==
            var r := ReadLine(st, Trim(line)); if r.Err? then r else ReadText(r.st, rest)
  {
    var text := line + "\n" + rest;
    assert text[|line|] == '\n';
    assert text[..|line|] == line && text[|line| + 1..] == rest;
    IndexCharAt(text, '\n', |line|);
  }

  function JoinComments(a: string, b: string): string {
    if a == "" then b else a + "\n" + b
  }

  lemma JoinAssoc(a: string, line: string, more: string)
    requires line != ""
    ensures JoinComments(JoinComments(a, line), more) == JoinComments(a, line + "\n" + more)
  {
    if a != "" {
      assert a + "\n" + line + "\n" + more == a + "\n" + (line + "\n" + more);
    }
  }

  lemma CommentLineRead(st: Reader, line: string, rest: string)
    requires CommentLineOk(line)
    ensures ReadText(st, line + "\n" + rest) == ReadText(st.(comments := JoinComments(st.comments, line)), rest)
  {
    TrimKeeps(line);
    LineRead(st, line, rest);
  }

  /** Comment lines are collected, whatever follows them. */
  lemma {:induction false} CommentRead(st: Reader, s: string, rest: string)
    requires GoodComment(s)
    ensures ReadText(st, s + "\n" + rest) == ReadText(st.(comments := JoinComments(st.comments, s)), rest)
    decreases |s|
  {
    var k := IndexChar(s, '\n');
    if k < 0 {
      CommentLineRead(st, s, rest);
    } else {
      var line, more := s[..k], s[k + 1..];
      assert s == line + "\n" + more;
      var text := more + "\n" + rest;
      assert s + "\n" + rest == line + "\n" + text;
      CommentLineRead(st, line, text);
      var st' := st.(comments := JoinComments(st.comments, line));
      CommentRead(st', more, rest);
      JoinAssoc(st.comments, line, more);
      assert st'.(comments := JoinComments(st'.comments, more)) == st.(comments := JoinComments(st.comments, s));
    }
  }

  // ---- one entry ----

  /** Which values come back through the writer's quoting and the reader's unquoting. */
  lemma ValueBack(v: string)
    ensures ReadValue(Trim(WriteValue(v))) == Some(v) <==> ValueOk(v)
    ensures ValueOk(v) ==> Trimmed(WriteValue(v))
  {
    var w := WriteValue(v);
    if '`' in v {
      assert w[0] == '"' && w[|w| - 1] == '"';
      TrimKeeps(w);
      if '"' in v {
        TripleBack(v);
      } else {
        assert w[1] == v[0] && v[0] in v;
        assert !At(w, TRIPLE, 0) by { assert w[0..3][1] == w[1]; }
        assert |w| == |v| + 2;
      }
    } else {
      RawBack(v);
    }
  }

  lemma TripleBack(v: string)
    ensures ReadValue(TRIPLE + v + TRIPLE) == Some(v)
  {
    var w := TRIPLE + v + TRIPLE;
    ByteLenAtLeast(w);
    assert At(w, TRIPLE, 0);
    assert w[3..] == v + TRIPLE;
    assert (v + TRIPLE)[|v|..] == TRIPLE;
    LastIndexFromEnd(v + TRIPLE, TRIPLE, |v + TRIPLE|);
    assert w[3..3 + |v|] == v;
  }

  lemma {:induction false} TrimShrinks(s: string)
    ensures |Trim(s)| <= |s| && (Trim(s) == s <==> Trimmed(s)) && Trimmed(Trim(s))
    ensures forall c :: c in Trim(s) ==> c in s
  {
    LeftShrinks(s);
    RightShrinks(TrimLeft(s));
  }

  lemma {:induction false} LeftShrinks(s: string)
    ensures |TrimLeft(s)| <= |s| && (TrimLeft(s) == [] || !IsSpace(TrimLeft(s)[0]))
    ensures TrimLeft(s) == s <==> s == [] || !IsSpace(s[0])
    ensures forall c :: c in TrimLeft(s) ==> c in s
  {
    if s == [] || !IsSpace(s[0]) {
    } else {
      LeftShrinks(s[1..]);
    }
  }

  lemma {:induction false} RightShrinks(s: string)
    ensures |TrimRight(s)| <= |s| && TrimRight(s) <= s
    ensures TrimRight(s) == [] || !IsSpace(TrimRight(s)[|TrimRight(s)| - 1])
    ensures TrimRight(s) == s <==> s == [] || !IsSpace(s[|s| - 1])
  {
    if s == [] || !IsSpace(s[|s| - 1]) {
    } else {
      RightShrinks(s[..|s| - 1]);
    }
  }

  lemma RawBack(v: string)
    requires '`' !in v
    ensures ReadValue(Trim(v)) == Some(v) <==> Trimmed(v) && !(ByteLen(v) >= 6 && At(v, TRIPLE, 0))
  {
    TrimShrinks(v);
    var right := Trim(v);
    TrimKeeps(right);
    assert right != "" ==> right[0] in right;
  }

  /** What is written for a key opens with a visible character. */
  lemma WriteKeyVisible(k: string)
    requires k != "" && (k[0] == '#' || KeyOk(k))
    ensures WriteKey(k) != "" && !IsSpace(WriteKey(k)[0])
    ensures OneLine(WriteKey(k))
  {
  }

  /** The line of an entry with a value. */
  lemma ValueLine(name: string, w: string, p: string) returns (q: string)
    requires name != "" && !IsSpace(name[0]) && Trimmed(w) && w != "" && (p == "" || p == " ")
    ensures Trim(name + (p + "=" + p) + w) == name + p + "=" + q
    ensures Trim(q) == w && q != "" && q[|q| - 1] == w[|w| - 1]
  {
    var line := name + (p + "=" + p) + w;
    q := p + w;
    assert line == name + p + "=" + q;
    assert line[0] == name[0] && line[|line| - 1] == w[|w| - 1];
    TrimKeeps(w);
    TrimKeeps(line);
    assert p == "" ==> q == w;
  }

  /** The line of an entry without one. */
  lemma BareLine(name: string, p: string)
    requires name != "" && !IsSpace(name[0]) && (p == "" || p == " ")
    ensures Trim(name + (p + "=" + p) + "") == name + p + "=" + ""
  {
    var core := name + p + "=";
    assert core[0] == name[0] && core[|core| - 1] == '=';
    TrimKeeps(core);
    assert name + (p + "=" + p) + "" == core + p;
    assert p == "" ==> core + p == core;
    assert core + "" == core;
  }

  /** The trimmed line of an entry: the key, an optional blank, the sign, and the value once trimmed. */
  lemma EntryLine(name: string, w: string, pretty: bool) returns (p: string, q: string)
    requires name != "" && !IsSpace(name[0]) && Trimmed(w)
    ensures Trim(name + EqualSign(pretty) + w) == name + p + "=" + q
    ensures (p == "" || p == " ") && Trim(q) == w
    ensures w != "" ==> q != "" && q[|q| - 1] == w[|w| - 1]
    ensures w == "" ==> q == ""
  {
    p := if pretty then " " else "";
    assert EqualSign(pretty) == p + "=" + p;
    if w != "" {
      q := ValueLine(name, w, p);
    } else {
      q := "";
      BareLine(name, p);
    }
  }

  lemma SplitUnquoted(name: string, p: string, q: string)
    requires name != "" && !HasSep(name) && Trimmed(name) && name[0] != '"' && name[0] != '`'
    requires p == "" || p == " "
    ensures SplitKey(name + p + "=" + q) == Some((name, |name| + |p|))
  {
    var line := name + p + "=" + q;
    var i := |name + p|;
    assert line[0] == name[0];
    assert line[i] == '=' && line[..i] == name + p;
    assert !HasSep(name + p);
    IndexSepAt(line, i);
    TrimKeeps(name);
    assert p == "" ==> name + p == name;
  }

  predicate Quotable(k: string, quote: string) {
    || (quote == "`" && '`' !in k)
    || (quote == "\"" && '"' !in k)
    || (quote == TRIPLE && !Contains(k, TRIPLE) && (k == "" || k[|k| - 1] != '"'))
  }

  lemma NoEarlierTriple(k: string, z: string, j: nat)
    requires j < |k| && !Contains(k, TRIPLE) && k[|k| - 1] != '"'
    ensures !At(k + TRIPLE + z, TRIPLE, j)
  {
    var x := k + TRIPLE + z;
    assert !At(k, TRIPLE, j);
    if j + 3 <= |k| {
      assert k[j..j + 3] == x[j..j + 3];
    } else {
      assert x[j..j + 3][|k| - 1 - j] == x[|k| - 1] == k[|k| - 1];
    }
  }

  /** The closing quote is found where it was written. */
  lemma CloseQuote(k: string, quote: string, z: string)
    requires Quotable(k, quote)
    ensures Index(k + quote + z, quote) == |k|
  {
    var x := k + quote + z;
    assert At(x, quote, |k|);
    forall j | 0 <= j < |k| ensures !At(x, quote, j) {
      if quote == TRIPLE {
        NoEarlierTriple(k, z, j);
      } else {
        assert x[j..j + 1][0] == x[j] == k[j];
      }
    }
    IndexFromAt(x, quote, 0, |k|);
  }

  lemma OpenQuote(k: string, quote: string, z: string)
    requires k != "" && Quotable(k, quote)
    ensures KeyQuote(quote + (k + quote + z)) == quote
  {
    var line := quote + (k + quote + z);
    ByteLenAtLeast(line);
    assert line[0] == quote[0];
    if quote == TRIPLE {
      assert At(line, TRIPLE, 0);
    } else if quote == "\"" {
      assert line[1] == k[0] && k[0] in k;
      assert line[0..3][1] == line[1];
    }
  }

  lemma SignAfter(a: string, p: string, q: string)
    requires !HasSep(a) && !HasSep(p)
    ensures IndexSep(a + (p + "=" + q)) == |a| + |p|
  {
    var tail := a + (p + "=" + q);
    var n := |a| + |p|;
    assert tail[n] == '=' && tail[..n] == a + p;
    IndexSepAt(tail, n);
  }

  lemma QuotedSlices(k: string, quote: string, z: string)
    ensures var line := quote + (k + quote + z); var n := |quote|;
            && line[n..] == k + quote + z && line[n + |k|..] == quote + z && line[n..n + |k|] == k
  {
  }

  lemma SplitByParts(line: string, quote: string, k: string, tail: string, close: nat, n: nat)
    requires line != "" && KeyQuote(line) == quote != "" && close == |quote| + |k| <= |line|
    requires Index(line[|quote|..], quote) == |k| && line[|quote|..close] == k
    requires line[close..] == tail && IndexSep(tail) == n > 0
    ensures SplitKey(line) == Some((k, n + close))
  {
  }

  lemma SplitQuoted(k: string, quote: string, p: string, q: string)
    requires k != "" && Quotable(k, quote) && quote != "" && !HasSep(quote) && !HasSep(p)
    ensures SplitKey(quote + (k + quote + (p + "=" + q))) == Some((k, |quote| + |k| + |quote| + |p|))
  {
    var z := p + "=" + q;
    OpenQuote(k, quote, z);
    QuotedSlices(k, quote, z);
    CloseQuote(k, quote, z);
    SignAfter(quote, p, q);
    SplitByParts(quote + (k + quote + z), quote, k, quote + z, |quote| + |k|, |quote| + |p|);
  }

  lemma Regroup(quote: string, k: string, p: string, q: string)
    ensures quote + k + quote + p + "=" + q == quote + (k + quote + (p + "=" + q))
  {
  }

  lemma SplitWrapped(k: string, quote: string, name: string, p: string, q: string)
    requires k != "" && Quotable(k, quote) && quote != "" && !HasSep(quote) && !HasSep(p)
    requires name == quote + k + quote
    ensures SplitKey(name + p + "=" + q) == Some((k, |name| + |p|))
  {
    Regroup(quote, k, p, q);
    SplitQuoted(k, quote, p, q);
  }

  /** The quote that a key with a sign in it is written between. */
  lemma QuoteOf(k: string) returns (quote: string)
    requires k != "" && k[0] != '#' && KeyFound(k) && HasSep(k)
    ensures WriteKey(k) == quote + k + quote && k != "" && Quotable(k, quote) && quote != "" && !HasSep(quote)
  {
    if '`' !in k {
      quote := "`";
    } else if '"' in k {
      quote := TRIPLE;
    } else {
      quote := "\"";
    }
  }

  lemma SplitWrittenQuoted(k: string, p: string, q: string)
    requires k != "" && k[0] != '#' && KeyFound(k) && HasSep(k) && (p == "" || p == " ")
    ensures SplitKey(WriteKey(k) + p + "=" + q) == Some((k, |WriteKey(k)| + |p|))
  {
    var quote := QuoteOf(k);
    SplitWrapped(k, quote, WriteKey(k), p, q);
  }

  /** The key comes back from the line, as it was before quoting. */
  lemma SplitWritten(k: string, p: string, q: string)
    requires k != "" && (k[0] == '#' || KeyFound(k)) && (p == "" || p == " ")
    ensures SplitKey(WriteKey(k) + p + "=" + q) == Some((if k[0] == '#' then "-" else k, |WriteKey(k)| + |p|))
  {
    if k[0] == '#' {
      SplitUnquoted("-", p, q);
    } else if !HasSep(k) {
      SplitUnquoted(k, p, q);
    } else {
      SplitWrittenQuoted(k, p, q);
    }
  }

  // ---- the keys that are found again ----

  lemma {:induction false} IndexFirst(s: string, sub: string, i: nat, j: nat)
    requires i <= j && At(s, sub, j)
    ensures i <= IndexFrom(s, sub, i) <= j
    decreases j - i
  {
    if i < j && !At(s, sub, i) { IndexFirst(s, sub, i + 1, j); }
  }

  /** A key that begins with the quote that opens the line is not what stands between the quotes. */
  lemma OpensWithQuote(line: string, q: string, k: string)
    requires line != "" && KeyQuote(line) == q != "" && |q| <= |k| && k[..|q|] == q
    ensures SplitKey(line).Some? ==> SplitKey(line).value.0 != k
  {
    if SplitKey(line).Some? {
      var rest := line[|q|..];
      var pos := Index(rest, q);
      var found := rest[..pos];
      assert line[|q|..pos + |q|] == found;
      assert At(rest, q, 0) ==> pos == 0;
      assert |found| >= |q| ==> found[..|q|] == rest[0..|q|];
    }
  }

  lemma SplitUnquotedDiffers(k: string, p: string, q: string)
    requires k != "" && !HasSep(k) && !KeyFound(k) && (p == "" || p == " ")
    ensures var r := SplitKey(k + p + "=" + q); r.Some? ==> r.value.0 != k
  {
    var line := k + p + "=" + q;
    var i := |k + p|;
    assert line[0] == k[0] && line[i] == '=' && line[..i] == k + p;
    var quote := KeyQuote(line);
    if quote == "" {
      assert !HasSep(k + p);
      IndexSepAt(line, i);
      TrimShrinks(k + p);
    } else {
      assert line[..|quote|] == quote;
      assert |quote| <= |k|;
      assert line[..|quote|] == k[..|quote|];
      OpensWithQuote(line, quote, k);
    }
  }

  lemma SplitQuotedDiffers(k: string, p: string, q: string)
    requires k != "" && HasSep(k) && !KeyFound(k) && (p == "" || p == " ")
    ensures var r := SplitKey(TRIPLE + k + TRIPLE + p + "=" + q); r.Some? ==> r.value.0 != k
  {
    var z := p + "=" + q;
    Regroup(TRIPLE, k, p, q);
    var line := TRIPLE + (k + TRIPLE + z);
    ByteLenAtLeast(line);
    assert At(line, TRIPLE, 0);
    var rest := line[3..];
    assert rest == k + TRIPLE + z;
    var j := EarlyTriple(k, z);
    IndexFirst(rest, TRIPLE, 0, j);
    var pos := Index(rest, TRIPLE);
    assert |line[3..pos + 3]| == pos < |k|;
  }

  lemma EarlyTriple(k: string, z: string) returns (j: nat)
    requires k != "" && (Contains(k, TRIPLE) || k[|k| - 1] == '"')
    ensures j < |k| && At(k + TRIPLE + z, TRIPLE, j)
  {
    var x := k + TRIPLE + z;
    if Contains(k, TRIPLE) {
      j :| 0 <= j <= |k| && At(k, TRIPLE, j);
      assert x[j..j + 3] == k[j..j + 3];
    } else {
      j := |k| - 1;
      assert x[j..j + 3] == [k[j]] + TRIPLE[..2];
    }
  }

  /** A key is found again if and only if the reader's rules for quotes and blanks give it back. */
  lemma KeyFoundIff(k: string, p: string, q: string)
    requires k != "" && k[0] != '#' && (p == "" || p == " ")
    ensures var r := SplitKey(WriteKey(k) + p + "=" + q); r.Some? && r.value.0 == k <==> KeyFound(k)
  {
    if KeyFound(k) {
      SplitWritten(k, p, q);
    } else if !HasSep(k) {
      SplitUnquotedDiffers(k, p, q);
    } else {
      SplitQuotedDiffers(k, p, q);
    }
  }

  /** What the reader makes of the line of an entry. */
  function AfterEntry(st: Reader, k: string, v: string): Reader {
    var cfg := Put(st.cfg, st.section, k, v);
    st.(cfg := if st.comments != "" then PutKeyComment(cfg, st.section, k, Commented(st.comments)) else cfg,
        count := if k != "" && k[0] == '#' then st.count + 1 else st.count,
        comments := "")
  }

  lemma EntryLooks(k: string, v: string, p: string, q: string, n: nat)
    requires EntryOk(k, v, n) && (p == "" || p == " ")
    requires if WriteValue(v) == "" then q == "" else q != "" && q[|q| - 1] == WriteValue(v)[|WriteValue(v)| - 1]
    ensures var line := WriteKey(k) + p + "=" + q; line != "" && !IsComment(line) && !IsHeader(line)
  {
    var name := WriteKey(k);
    var line := name + p + "=" + q;
    WriteKeyVisible(k);
    assert line[0] == name[0];
    if q == "" {
      assert line[|line| - 1] == '=';
    } else {
      assert line[|line| - 1] == q[|q| - 1];
    }
  }

  /** What is made of a line with the written key, the sign, and a text that trims to the written value. */
  lemma EntryOfLine(st: Reader, k: string, v: string, p: string, q: string)
    requires EntryOk(k, v, st.count) && st.section != "" && (p == "" || p == " ")
    requires if WriteValue(v) == "" then q == "" else q != "" && q[|q| - 1] == WriteValue(v)[|WriteValue(v)| - 1]
    requires ReadValue(Trim(q)) == Some(v)
    ensures ReadLine(st, WriteKey(k) + p + "=" + q) == Ok(AfterEntry(st, k, v))
  {
    var name := WriteKey(k);
    EntryLooks(k, v, p, q, st.count);
    SplitWritten(k, p, q);
    AfterSign(name, p, q);
    EntryParsed(st, if k[0] == '#' then "-" else k, v, name + p + "=" + q, |name| + |p|, q);
    StoreEntry(st, k, v);
  }

  lemma EntryRead(st: Reader, k: string, v: string, pretty: bool)
    requires EntryOk(k, v, st.count) && st.section != ""
    ensures ReadLine(st, Trim(WriteKey(k) + EqualSign(pretty) + WriteValue(v))) == Ok(AfterEntry(st, k, v))
  {
    WriteKeyVisible(k);
    ValueBack(v);
    var p, q := EntryLine(WriteKey(k), WriteValue(v), pretty);
    EntryOfLine(st, k, v, p, q);
  }

  lemma AfterSign(name: string, p: string, q: string)
    ensures var line, i := name + p + "=" + q, |name| + |p|; i < |line| && line[i + 1..] == q
  {
  }

  lemma EntryParsed(st: Reader, written: string, v: string, line: string, i: nat, q: string)
    requires st.section != "" && line != "" && !IsComment(line) && !IsHeader(line)
    requires i < |line| && SplitKey(line) == Some((written, i))
    requires line[i + 1..] == q && ReadValue(Trim(q)) == Some(v)
    ensures ReadLine(st, line) == Ok(Store(st, written, v))
  {
    assert ReadEntry(st, line) == Ok(Store(st, written, v));
  }

  lemma StoreEntry(st: Reader, k: string, v: string)
    requires EntryOk(k, v, st.count) && st.section != ""
    ensures Store(st, if k[0] == '#' then "-" else k, v) == AfterEntry(st, k, v)
  {
  }

  lemma GoodCommentStarts(s: string)
    requires GoodComment(s)
    ensures s != "" && (s[0] == '#' || s[0] == ';') && Commented(s) == s
  {
    var k := IndexChar(s, '\n');
    if k >= 0 { assert s[..k][0] == s[0]; }
  }

  lemma CommentTextRead(st: Reader, comment: string, rest: string)
    requires CommentOk(comment) && st.comments == ""
    ensures ReadText(st, CommentText(comment) + rest) == ReadText(st.(comments := comment), rest)
    ensures Commented(comment) == comment
  {
    if comment == "" {
      assert CommentText(comment) + rest == rest;
    } else {
      assert CommentText(comment) + rest == comment + "\n" + rest;
      CommentRead(st, comment, rest);
      GoodCommentStarts(comment);
    }
  }

  lemma EntryTextRead(
      st: Reader, c: Config, s: string, k: string, pretty: bool, rest: string, text: string, st': Reader)
    requires s in c.data && k in c.data[s] && EntryOk(k, c.data[s][k], st.count)
    requires CommentOk(KeyComment(c, s, k, ""))
    requires s != "" && st.section == s && st.comments == ""
    requires text == KeyText(c, s, k, pretty) + rest
    requires st' == st.(cfg := AddKey(st.cfg, c, s, k, ""),
                        count := if k[0] == '#' then st.count + 1 else st.count)
    ensures ReadText(st, text) == ReadText(st', rest)
  {
    var comment := KeyComment(c, s, k, "");
    var v := c.data[s][k];
    var line := WriteKey(k) + EqualSign(pretty) + WriteValue(v);
    Assoc(CommentText(comment), line + "\n", rest);
    CommentTextRead(st, comment, line + "\n" + rest);
    EntryLineRead(st.(comments := comment), k, v, pretty, line, rest);
  }

  lemma EntryLineRead(st: Reader, k: string, v: string, pretty: bool, line: string, rest: string)
    requires EntryOk(k, v, st.count) && st.section != ""
    requires line == WriteKey(k) + EqualSign(pretty) + WriteValue(v)
    ensures ReadText(st, line + "\n" + rest) == ReadText(AfterEntry(st, k, v), rest)
  {
    WriteKeyVisible(k);
    EntryRead(st, k, v, pretty);
    LineRead(st, line, rest);
  }

  // ---- sections ----

  /** How many keys of the list are numbered. */
  function Numbered(keys: seq<string>): nat {
    if keys == [] then 0 else (if keys[0] != "" && keys[0][0] == '#' then 1 else 0) + Numbered(keys[1..])
  }

  /** The reader once it has stored the first of the keys. */
  ghost function AfterKey(st: Reader, c: Config, s: string, k: string): Reader
    requires s in c.data && k in c.data[s] && k != ""
  {
    st.(cfg := AddKey(st.cfg, c, s, k, ""), count := if k[0] == '#' then st.count + 1 else st.count)
  }

  lemma KeysTail(st: Reader, c: Config, s: string, keys: seq<string>)
    requires Keys(c, s, keys) && keys != [] && KeysOk(c, s, keys, st.count) && st.section == s && st.comments == ""
    ensures s in c.data && keys[0] in c.data[s] && keys[0] != "" && Keys(c, s, keys[1..])
    ensures var st1 := AfterKey(st, c, s, keys[0]);
            && KeysOk(c, s, keys[1..], st1.count) && st1.section == s && st1.comments == ""
            && AddKeys(st1.cfg, c, s, keys[1..], "") == AddKeys(st.cfg, c, s, keys, "")
            && st1.count + Numbered(keys[1..]) == st.count + Numbered(keys)
  {
    assert keys[0] in keys && forall x :: x in keys[1..] ==> x in keys;
  }

  lemma {:induction false} KeysRead(
      st: Reader, c: Config, s: string, keys: seq<string>, pretty: bool, rest: string, text: string, st': Reader)
    requires Keys(c, s, keys) && KeysOk(c, s, keys, st.count)
    requires s != "" && st.section == s && st.comments == ""
    requires text == KeysText(c, s, keys, pretty) + rest
    requires st' == Reader(AddKeys(st.cfg, c, s, keys, ""), s, st.count + Numbered(keys), "")
    ensures ReadText(st, text) == ReadText(st', rest)
    decreases |keys|
  {
    if keys == [] {
      assert text == rest;
    } else {
      KeysTail(st, c, s, keys);
      var st1 := AfterKey(st, c, s, keys[0]);
      FirstKeyRead(st, c, s, keys, pretty, rest, st1);
      KeysRead(st1, c, s, keys[1..], pretty, rest, KeysText(c, s, keys[1..], pretty) + rest, st');
    }
  }

  lemma FirstKeyRead(st: Reader, c: Config, s: string, keys: seq<string>, pretty: bool, rest: string, st': Reader)
    requires Keys(c, s, keys) && keys != [] && KeysOk(c, s, keys, st.count)
    requires s != "" && st.section == s && st.comments == ""
    requires keys[0] in keys && st' == st.(cfg := AddKey(st.cfg, c, s, keys[0], ""),
                                           count := if keys[0][0] == '#' then st.count + 1 else st.count)
    requires Keys(c, s, keys[1..])
    ensures ReadText(st, KeysText(c, s, keys, pretty) + rest)
            == ReadText(st', KeysText(c, s, keys[1..], pretty) + rest)
  {
    var k, more := keys[0], KeysText(c, s, keys[1..], pretty);
    Assoc(KeyText(c, s, k, pretty), more, rest);
    EntryTextRead(st, c, s, k, pretty, more + rest, KeysText(c, s, keys, pretty) + rest, st');
  }

  lemma HeaderRead(st: Reader, s: string, rest: string)
    requires s != "" && s != DEFAULT_SECTION && Trimmed(s) && OneLine(s)
    requires st.comments == "" || Commented(st.comments) == st.comments
    ensures ReadText(st, HeaderText(s) + rest) ==
            ReadText(Reader(Put(if st.comments == "" then st.cfg else PutSectionComment(st.cfg, s, st.comments),
                                s, KEEPER, " "), s, 1, ""), rest)
  {
    var line := "[" + s + "]";
    TrimKeeps(line);
    LineRead(st, line, rest);
    HeaderLine(st, s);
  }

  lemma HeaderLine(st: Reader, s: string)
    requires s != "" && Trimmed(s)
    requires st.comments == "" || Commented(st.comments) == st.comments
    ensures ReadLine(st, "[" + s + "]") ==
            Ok(Reader(Put(if st.comments == "" then st.cfg else PutSectionComment(st.cfg, s, st.comments),
                          s, KEEPER, " "), s, 1, ""))
  {
    var line := "[" + s + "]";
    assert line[0] == '[' && line[|line| - 1] == ']' && line[1..|line| - 1] == s;
    TrimKeeps(s);
  }

  /** The blank line after a section is skipped. */
  lemma BlankRead(st: Reader, rest: string)
    ensures ReadText(st, "\n" + rest) == ReadText(st, rest)
  {
    assert [] + "\n" + rest == "\n" + rest;
    LineRead(st, [], rest);
  }

  /** The keys of a section and the blank line after them. */
  lemma BodyRead(st: Reader, c: Config, s: string, keys: seq<string>, pretty: bool, rest: string, text: string, st': Reader)
    requires Keys(c, s, keys) && KeysOk(c, s, keys, st.count)
    requires s != "" && st.section == s && st.comments == ""
    requires text == KeysText(c, s, keys, pretty) + ("\n" + rest)
    requires st' == Reader(AddKeys(st.cfg, c, s, keys, ""), s, st.count + Numbered(keys), "")
    ensures ReadText(st, text) == ReadText(st', rest)
  {
    KeysRead(st, c, s, keys, pretty, "\n" + rest, text, st');
    BlankRead(st', rest);
  }

  /** The keeper key, which is not written, is restored by the header. */
  lemma KeeperFirst(cfg: Config, c: Config, s: string, pretty: bool)
    requires s in c.data && s in c.keyList && Keys(c, s, c.keyList[s]) && c.keyList[s] != []
    requires c.keyList[s][0] == KEEPER && c.data[s][KEEPER] == " " && KeyComment(c, s, KEEPER, "") == ""
    ensures Keys(c, s, c.keyList[s][1..])
    ensures KeysText(c, s, c.keyList[s], pretty) == KeysText(c, s, c.keyList[s][1..], pretty)
    ensures AddKeys(cfg, c, s, c.keyList[s], "") == AddKeys(Put(cfg, s, KEEPER, " "), c, s, c.keyList[s][1..], "")
  {
    var keys := c.keyList[s];
    assert keys[0] in keys && forall k :: k in keys[1..] ==> k in keys;
  }

  lemma SectionSplit(comment: string, header: string, keys: string, rest: string)
    ensures comment + (header + (keys + "\n")) + rest == comment + (header + (keys + ("\n" + rest)))
    ensures comment == "" && header == "" ==> comment + (header + (keys + "\n")) + rest == keys + ("\n" + rest)
  {
  }

  /** What the reader makes of a section that is not DEFAULT. */
  lemma NamedSectionRead(st: Reader, c: Config, s: string, pretty: bool, rest: string, text: string, st': Reader)
    requires s in c.data && s in c.keyList && Keys(c, s, c.keyList[s]) && c.keyList[s] != []
    requires s != DEFAULT_SECTION && SectionOk(c, s) && st.comments == ""
    requires text == SectionText(c, s, pretty) + rest
    requires st' == Reader(AddSection(st.cfg, c, s, ""), s, 1 + Numbered(c.keyList[s][1..]), "")
    ensures ReadText(st, text) == ReadText(st', rest)
  {
    var keys := c.keyList[s];
    var comment := SectionComment(c, s, "");
    var body := KeysText(c, s, keys, pretty) + ("\n" + rest);
    SectionSplit(CommentText(comment), HeaderText(s), KeysText(c, s, keys, pretty), rest);
    CommentTextRead(st, comment, HeaderText(s) + body);
    HeaderRead(st.(comments := comment), s, body);
    var cfg := if comment == "" then st.cfg else PutSectionComment(st.cfg, s, comment);
    KeeperFirst(cfg, c, s, pretty);
    BodyRead(Reader(Put(cfg, s, KEEPER, " "), s, 1, ""), c, s, keys[1..], pretty, rest, body, st');
  }

  lemma DefaultSectionRead(st: Reader, c: Config, s: string, pretty: bool, rest: string, text: string, st': Reader)
    requires s == DEFAULT_SECTION && s in c.data && s in c.keyList && Keys(c, s, c.keyList[s]) && c.keyList[s] != []
    requires SectionOk(c, s) && st.comments == "" && st.section == s && st.count == 1
    requires text == SectionText(c, s, pretty) + rest
    requires st' == Reader(AddSection(st.cfg, c, s, ""), s, 1 + Numbered(c.keyList[s]), "")
    ensures ReadText(st, text) == ReadText(st', rest)
  {
    var keys := KeysText(c, s, c.keyList[s], pretty);
    SectionSplit(CommentText(""), HeaderText(s), keys, rest);
    BodyRead(st, c, s, c.keyList[s], pretty, rest, keys + ("\n" + rest), st');
  }

  /** The reader after one section. */
  ghost function AfterSection(st: Reader, c: Config, s: string): Reader
    requires s in c.data && s in c.keyList && Keys(c, s, c.keyList[s]) && c.keyList[s] != []
  {
    var n := 1 + Numbered(if s == DEFAULT_SECTION then c.keyList[s] else c.keyList[s][1..]);
    Reader(AddSection(st.cfg, c, s, ""), s, n, "")
  }

  lemma SectionRead(st: Reader, c: Config, s: string, pretty: bool, rest: string)
    requires s in c.data && s in c.keyList && Keys(c, s, c.keyList[s]) && c.keyList[s] != []
    requires SectionOk(c, s) && st.comments == ""
    requires s == DEFAULT_SECTION ==> st.section == s && st.count == 1
    ensures ReadText(st, SectionText(c, s, pretty) + rest) == ReadText(AfterSection(st, c, s), rest)
  {
    if s == DEFAULT_SECTION {
      DefaultSectionRead(st, c, s, pretty, rest, SectionText(c, s, pretty) + rest, AfterSection(st, c, s));
    } else {
      NamedSectionRead(st, c, s, pretty, rest, SectionText(c, s, pretty) + rest, AfterSection(st, c, s));
    }
  }

  lemma {:induction false} SectionsRead(st: Reader, c: Config, ss: seq<string>, pretty: bool, text: string, cfg': Config)
    returns (st': Reader)
    requires Sections(c, ss) && Listed(c, ss) && st.comments == ""
    requires forall s :: s in ss ==> c.keyList[s] != [] && SectionOk(c, s)
    requires forall i :: 0 <= i < |ss| && ss[i] == DEFAULT_SECTION ==> i == 0 && st.section == ss[0] && st.count == 1
    requires text == SectionsText(c, ss, pretty) && cfg' == AddSections(st.cfg, c, ss, "")
    ensures ReadText(st, text) == Ok(st') && st'.cfg == cfg'
    decreases |ss|
  {
    if ss == [] {
      st' := st;
      assert ReadText(st, "") == Ok(st);
    } else {
      var s := ss[0];
      assert s in ss && forall u :: u in ss[1..] ==> u in ss;
      var rest := SectionsText(c, ss[1..], pretty);
      SectionRead(st, c, s, pretty, rest);
      forall i | 0 <= i < |ss[1..]| ensures ss[1..][i] != DEFAULT_SECTION {
        assert ss[1..][i] == ss[i + 1];
      }
      st' := SectionsRead(AfterSection(st, c, s), c, ss[1..], pretty, rest, cfg');
    }
  }

  // ---- the round trip ----

  predicate NotBom(s: string) {
    s != "" && s[0] != BOM
  }

  lemma KeyTextHead(c: Config, s: string, k: string, pretty: bool)
    requires s in c.data && k in c.data[s] && k != "" && s != "" && (k[0] == '#' || KeyOk(k))
    requires CommentOk(KeyComment(c, s, k, ""))
    requires KeyComment(c, s, k, "") != "" || k[0] != BOM || HasSep(k)
    ensures NotBom(KeyText(c, s, k, pretty))
  {
    var comment := KeyComment(c, s, k, "");
    if comment != "" {
      GoodCommentStarts(comment);
    } else {
      WriteKeyVisible(k);
      assert NotBom(WriteKey(k));
    }
  }

  lemma SectionTextHead(c: Config, s: string, pretty: bool)
    requires s in c.data && s in c.keyList && Keys(c, s, c.keyList[s]) && c.keyList[s] != [] && SectionOk(c, s)
    requires var k := c.keyList[s][0];
             s == DEFAULT_SECTION ==> KeyComment(c, s, k, "") != "" || k[0] != BOM || HasSep(k)
    ensures NotBom(SectionText(c, s, pretty))
  {
    var comment := SectionComment(c, s, "");
    if comment != "" {
      GoodCommentStarts(comment);
    } else if s != DEFAULT_SECTION {
      assert HeaderText(s)[0] == '[';
    } else {
      var k := c.keyList[s][0];
      assert k in c.keyList[s];
      KeyTextHead(c, s, k, pretty);
    }
  }

  /** The reader drops no byte order mark. */
  lemma NoBom(c: Config, pretty: bool)
    requires WellFormed(c) && !StartsWithBom(c) && Sections(c, c.sectionList)
    ensures WithoutBom(Save(c, pretty)) == Save(c, pretty)
  {
    var ss := c.sectionList;
    if ss != [] {
      assert ss[0] in ss && SectionOk(c, ss[0]);
      WritableSection(c, ss[0]);
      assert c.keyList[ss[0]][0] in c.keyList[ss[0]];
      SectionTextHead(c, ss[0], pretty);
    }
  }

  lemma {:induction false} KeysNonBlank(c: Config, s: string, keys: seq<string>, n: nat)
    requires s in c.data && (forall k :: k in keys ==> k in c.data[s]) && KeysOk(c, s, keys, n)
    ensures Keys(c, s, keys)
    decreases |keys|
  {
    if keys == [] {
    } else {
      assert keys[0] in keys && forall k :: k in keys[1..] ==> k in keys;
      KeysNonBlank(c, s, keys[1..], if keys[0][0] == '#' then n + 1 else n);
      assert keys == [keys[0]] + keys[1..];
    }
  }

  lemma WritableSection(c: Config, s: string)
    requires WellFormed(c) && s in c.sectionList
    ensures s in c.keyList && c.keyList[s] != [] && Keys(c, s, c.keyList[s])
  {
    assert SectionOk(c, s);
    var keys := c.keyList[s];
    if s == DEFAULT_SECTION {
      KeysNonBlank(c, s, keys, 1);
    } else {
      KeysNonBlank(c, s, keys[1..], 1);
      assert keys == [keys[0]] + keys[1..];
    }
  }

  lemma Writable(c: Config)
    requires WellFormed(c)
    ensures Sections(c, c.sectionList)
  {
    forall s | s in c.sectionList ensures s in c.keyList && Keys(c, s, c.keyList[s]) {
      WritableSection(c, s);
    }
  }

  /** What is printed is read back as the same sections, keys and values in order, with the same comments. */
  ghost predicate ReadBack(c: Config, pretty: bool)
    requires Sections(c, c.sectionList)
  {
    var r := Read(Empty(), Save(c, pretty));
    r.Ok? && Same(r.st.cfg, c, "")
  }

  /** Printing then reading gives the configuration back, with or without blanks around the signs. */
  lemma RoundTrip(c: Config, pretty: bool)
    requires WellFormed(c) && !StartsWithBom(c)
    ensures Sections(c, c.sectionList) && ReadBack(c, pretty)
  {
    forall s | s in c.sectionList ensures s in c.keyList && c.keyList[s] != [] && Keys(c, s, c.keyList[s]) {
      WritableSection(c, s);
    }
    NoBom(c, pretty);
    var st' := SectionsRead(Reader(Empty(), DEFAULT_SECTION, 1, ""), c, c.sectionList, pretty, Save(c, pretty),
                            AddSections(Empty(), c, c.sectionList, ""));
    Rebuild(c, "");
  }
}
