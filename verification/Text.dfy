/** The string functions the parsers rely on: trimming, searching, decimal numerals. */
module Text {

  /** The characters that `strings.TrimSpace` removes. */
  predicate IsSpace(c: char) {
    || '\U{9}' <= c <= '\U{D}' || c == ' ' || c == '\U{85}' || c == '\U{A0}'
    || c == '\U{1680}' || '\U{2000}' <= c <= '\U{200A}' || c == '\U{2028}' || c == '\U{2029}'
    || c == '\U{202F}' || c == '\U{205F}' || c == '\U{3000}'
  }

  function TrimLeft(s: string): string {
    if s != [] && IsSpace(s[0]) then TrimLeft(s[1..]) else s
  }

  function TrimRight(s: string): string {
    if s != [] && IsSpace(s[|s| - 1]) then TrimRight(s[..|s| - 1]) else s
  }

  function Trim(s: string): string {
    TrimRight(TrimLeft(s))
  }

  predicate Trimmed(s: string) {
    s == [] || (!IsSpace(s[0]) && !IsSpace(s[|s| - 1]))
  }

  predicate OneLine(s: string) {
    '\n' !in s
  }

  /** Trimming removes nothing from a trimmed string, nor from one with a blank on either side. */
  lemma TrimKeeps(s: string)
    requires Trimmed(s)
    ensures Trim(s) == s && Trim(" " + s) == s && Trim(s + " ") == s
  {
    assert TrimLeft(" " + s) == TrimLeft((" " + s)[1..]);
    assert (" " + s)[1..] == s;
    if s == [] {
      assert s + " " == " ";
      assert TrimLeft(" ") == TrimLeft([]);
    } else {
      assert (s + " ")[0] == s[0];
      assert (s + " ")[..|s + " "| - 1] == s;
    }
  }

  lemma Assoc(a: string, b: string, c: string)
    ensures a + b + c == a + (b + c)
  {
  }

  // ---- searching ----

  /** The first position of `c`, or -1. */
  function IndexChar(s: string, c: char): (i: int)
    ensures -1 <= i < |s| && (i >= 0 ==> s[i] == c)
  {
    if s == [] then -1
    else if s[0] == c then 0
    else
      var i := IndexChar(s[1..], c);
      if i < 0 then -1 else i + 1
  }

  lemma {:induction false} IndexCharAt(s: string, c: char, i: nat)
    requires i < |s| && s[i] == c && c !in s[..i]
    ensures IndexChar(s, c) == i
  {
    if i == 0 {
    } else {
      assert s[..i] == [s[0]] + s[1..][..i - 1];
      assert s[0] in s[..i];
      IndexCharAt(s[1..], c, i - 1);
    }
  }

  predicate IsSep(c: char) {
    c == '=' || c == ':'
  }

  predicate HasSep(s: string) {
    '=' in s || ':' in s
  }

  /** The first position of `=` or `:`, or -1. */
  function IndexSep(s: string): (i: int)
    ensures -1 <= i < |s|
  {
    if s == [] then -1
    else if IsSep(s[0]) then 0
    else
      var i := IndexSep(s[1..]);
      if i < 0 then -1 else i + 1
  }

  lemma {:induction false} IndexSepAt(s: string, i: nat)
    requires i < |s| && IsSep(s[i]) && !HasSep(s[..i])
    ensures IndexSep(s) == i
  {
    if i == 0 {
    } else {
      assert s[..i] == [s[0]] + s[1..][..i - 1];
      assert s[0] in s[..i];
      IndexSepAt(s[1..], i - 1);
    }
  }

  /** `sub` stands in `s` at position `i`. */
  predicate At(s: string, sub: string, i: int) {
    0 <= i && i + |sub| <= |s| && s[i..i + |sub|] == sub
  }

  predicate Contains(s: string, sub: string) {
    exists i :: 0 <= i <= |s| && At(s, sub, i)
  }

  /** The first position from `i` on where `sub` stands in `s`, or -1. */
  function IndexFrom(s: string, sub: string, i: nat): (r: int)
    requires i <= |s|
    ensures -1 <= r && (r >= 0 ==> r + |sub| <= |s|)
    decreases |s| - i
  {
    if At(s, sub, i) then i
    else if i == |s| then -1
    else IndexFrom(s, sub, i + 1)
  }

  function Index(s: string, sub: string): (r: int)
    ensures -1 <= r && (r >= 0 ==> r + |sub| <= |s|)
  {
    IndexFrom(s, sub, 0)
  }

  lemma {:induction false} IndexFromAt(s: string, sub: string, i: nat, r: nat)
    requires i <= r && At(s, sub, r) && forall j :: i <= j < r ==> !At(s, sub, j)
    ensures IndexFrom(s, sub, i) == r
    decreases r - i
  {
    if i >= r {
    } else {
      IndexFromAt(s, sub, i + 1, r);
    }
  }

  /** The last position up to `i` where `sub` stands in `s`, or -1. */
  function LastIndexFrom(s: string, sub: string, i: nat): (r: int)
    ensures -1 <= r && (r >= 0 ==> r + |sub| <= |s|)
  {
    if At(s, sub, i) then i
    else if i == 0 then -1
    else LastIndexFrom(s, sub, i - 1)
  }

  function LastIndex(s: string, sub: string): (r: int)
    ensures -1 <= r && (r >= 0 ==> r + |sub| <= |s|)
  {
    LastIndexFrom(s, sub, |s|)
  }

  lemma {:induction false} LastIndexFromEnd(s: string, sub: string, i: nat)
    requires |sub| <= |s| && s[|s| - |sub|..] == sub && |s| - |sub| <= i
    ensures LastIndexFrom(s, sub, i) == |s| - |sub|
  {
    if i == |s| - |sub| {
      assert s[i..i + |sub|] == s[i..];
    } else {
      LastIndexFromEnd(s, sub, i - 1);
    }
  }

  // ---- UTF-8 ----

  function Width(c: char): nat {
    if c < '\U{80}' then 1 else if c < '\U{800}' then 2 else if c < '\U{10000}' then 3 else 4
  }

  /** The length that Go's `len` reports. */
  function ByteLen(s: string): nat {
    if s == [] then 0 else Width(s[0]) + ByteLen(s[1..])
  }

  lemma {:induction false} ByteLenAtLeast(s: string)
    ensures ByteLen(s) >= |s|
  {
    if s == [] {
    } else {
      ByteLenAtLeast(s[1..]);
    }
  }

  // ---- decimal numerals ----

  predicate IsDigit(c: char) {
    '0' <= c <= '9'
  }

  function DigitChar(d: nat): char
    requires d < 10
  {
    '0' + d as char
  }

  function DigitValue(c: char): nat
    requires IsDigit(c)
  {
    (c - '0') as nat
  }

  /** `%d` of a natural number. */
  function Decimal(n: nat): (s: string)
    ensures s != "" && forall i :: 0 <= i < |s| ==> IsDigit(s[i])
  {
    if n < 10 then [DigitChar(n)] else Decimal(n / 10) + [DigitChar(n % 10)]
  }

  predicate AllDigits(s: string) {
    forall i :: 0 <= i < |s| ==> IsDigit(s[i])
  }

  /** The number that a string of digits denotes. */
  function Value(s: string): nat
    requires AllDigits(s)
  {
    if s == [] then 0 else 10 * Value(s[..|s| - 1]) + DigitValue(s[|s| - 1])
  }

  lemma {:induction false} ValueOfDecimal(n: nat)
    ensures Value(Decimal(n)) == n
  {
    if n < 10 {
      assert Decimal(n)[..|Decimal(n)| - 1] == [];
    } else {
      ValueOfDecimal(n / 10);
      assert Decimal(n)[..|Decimal(n)| - 1] == Decimal(n / 10);
    }
  }
}
