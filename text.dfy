/** The Python `str` operations the core relies on, stated over `seq<char>`:
    `strip`, `lstrip(chars)`, ASCII `lower`, substring search, `split`,
    `str(int)` and zero padding, and the concatenation of text blocks. */
module Text {

  /** The characters for which Python's `str.isspace()` holds, which is the
      set `str.strip()` removes when called without arguments. */
  const Whitespace: set<char> := {
    '\t', '\n', '\U{B}', '\U{C}', '\r', '\U{1C}', '\U{1D}', '\U{1E}', '\U{1F}', ' ',
    '\U{85}', '\U{A0}', '\U{1680}',
    '\U{2000}', '\U{2001}', '\U{2002}', '\U{2003}', '\U{2004}', '\U{2005}',
    '\U{2006}', '\U{2007}', '\U{2008}', '\U{2009}', '\U{200A}',
    '\U{2028}', '\U{2029}', '\U{202F}', '\U{205F}', '\U{3000}'
  }

  /** Number of leading characters of `s` that belong to `cs`. */
  function LeadingRun(s: string, cs: set<char>): (n: nat)
    ensures n <= |s|
    ensures forall i :: 0 <= i < n ==> s[i] in cs
    ensures n == |s| || s[n] !in cs
  {
    if s == [] || s[0] !in cs then 0 else 1 + LeadingRun(s[1..], cs)
  }

  /** Number of trailing characters of `s` that belong to `cs`. */
  function TrailingRun(s: string, cs: set<char>): (n: nat)
    ensures n <= |s|
    ensures forall i :: |s| - n <= i < |s| ==> s[i] in cs
    ensures n == |s| || s[|s| - 1 - n] !in cs
  {
    if s == [] || s[|s| - 1] !in cs then 0 else 1 + TrailingRun(s[..|s| - 1], cs)
  }

  /** Python `s.lstrip(chars)`: every leading character found in `cs` is removed. */
  function LStrip(s: string, cs: set<char>): (r: string)
    ensures |r| <= |s| && r == s[|s| - |r|..]
    ensures r == [] || r[0] !in cs
    ensures forall i :: 0 <= i < |s| - |r| ==> s[i] in cs
  {
    s[LeadingRun(s, cs)..]
  }

  /** No whitespace at either end. */
  predicate IsStripped(s: string) {
    s == [] || (s[0] !in Whitespace && s[|s| - 1] !in Whitespace)
  }

  /** `s` is nothing but whitespace. */
  predicate IsBlank(s: string) {
    forall i :: 0 <= i < |s| ==> s[i] in Whitespace
  }

  /** `r` is `s` with the whitespace before offset `i` and after `i + |r|` removed. */
  ghost predicate TrimmedAt(s: string, r: string, i: int) {
    0 <= i <= i + |r| <= |s| && s[i..i + |r|] == r &&
    IsBlank(s[..i]) && IsBlank(s[i + |r|..])
  }

  /** Python `s.strip()`. */
  function Strip(s: string): (r: string)
    ensures IsStripped(r)
    ensures exists i :: TrimmedAt(s, r, i)
    ensures r == [] <==> IsBlank(s)
  {
    var a := LeadingRun(s, Whitespace);
    var t := s[a..];
    var r := t[..|t| - TrailingRun(t, Whitespace)];
    assert TrimmedAt(s, r, a) by {
      assert s[a..a + |r|] == r;
      assert s[a + |r|..] == t[|r|..];
    }
    r
  }

  /** Python's ASCII case mapping of one character (`str.lower` restricted to ASCII). */
  function LowerChar(c: char): char {
    if 'A' <= c <= 'Z' then (c as int + 32) as char else c
  }

  /** Python `s.lower()` on ASCII letters; every other character is kept. */
  function Lower(s: string): (r: string)
    ensures |r| == |s|
    ensures forall i :: 0 <= i < |s| ==> r[i] == LowerChar(s[i])
  {
    seq(|s|, i requires 0 <= i < |s| => LowerChar(s[i]))
  }

  /** `w` occurs in `s` at offset `i`. */
  predicate Occurs(s: string, w: string, i: int) {
    0 <= i && i + |w| <= |s| && s[i..i + |w|] == w
  }

  /** Python `w in s` for strings. */
  predicate Contains(s: string, w: string) {
    exists i | 0 <= i <= |s| - |w| :: Occurs(s, w, i)
  }

  predicate StartsWith(s: string, p: string) {
    |p| <= |s| && s[..|p|] == p
  }

  predicate EndsWith(s: string, p: string) {
    |p| <= |s| && s[|s| - |p|..] == p
  }

  /** `a` occurs in `s` and `b` occurs later, after the whole of `a`. */
  ghost predicate InOrder(s: string, a: string, b: string) {
    exists i, j :: Occurs(s, a, i) && Occurs(s, b, j) && i + |a| <= j
  }

  lemma OccursInPrefix(s: string, t: string, w: string, i: int)
    requires Occurs(s, w, i)
    ensures Occurs(s + t, w, i)
  {
    assert (s + t)[i..i + |w|] == s[i..i + |w|];
  }

  lemma OccursInSuffix(p: string, s: string, w: string, i: int)
    requires Occurs(s, w, i)
    ensures Occurs(p + s, w, |p| + i)
  {
    assert (p + s)[|p| + i..|p| + i + |w|] == s[i..i + |w|];
  }

  /** Python `s.split(sep)` for a one-character separator: the pieces between
      separators, so that a string with `k` separators gives `k + 1` pieces. */
  function Split(s: string, sep: char): (parts: seq<string>)
    ensures |parts| >= 1
    ensures forall k :: 0 <= k < |parts| ==> sep !in parts[k]
  {
    if s == [] then [""]
    else
      var rest := Split(s[1..], sep);
      if s[0] == sep then [""] + rest
      else [[s[0]] + rest[0]] + rest[1..]
  }

  /** Python `sep.join(parts)`. */
  function Join(parts: seq<string>, sep: char): string {
    if parts == [] then ""
    else if |parts| == 1 then parts[0]
    else parts[0] + [sep] + Join(parts[1..], sep)
  }

  /** Splitting loses nothing: joining the pieces again gives the original text. */
  lemma {:induction false} JoinSplit(s: string, sep: char)
    ensures Join(Split(s, sep), sep) == s
  {
    if s != [] {
      var rest := Split(s[1..], sep);
      JoinSplit(s[1..], sep);
      if s[0] == sep {
        assert ([""] + rest)[1..] == rest;
      } else if |rest| == 1 {
        assert Join(rest, sep) == rest[0];
      } else {
        var parts := [[s[0]] + rest[0]] + rest[1..];
        assert parts[1..] == rest[1..];
      }
    }
  }

  function DigitChar(d: nat): char
    requires d < 10
  {
    "0123456789"[d]
  }

  predicate IsDigits(s: string) {
    forall i :: 0 <= i < |s| ==> '0' <= s[i] <= '9'
  }

  /** Python `str(n)` for a non-negative integer. */
  function Decimal(n: nat): (s: string)
    ensures |s| >= 1 && IsDigits(s)
  {
    if n < 10 then [DigitChar(n)] else Decimal(n / 10) + [DigitChar(n % 10)]
  }

  /** Like `str(n)`, `Decimal` writes no leading zero: only 0 itself starts
      with the digit 0. */
  lemma {:induction false} DecimalNoLeadingZero(n: nat)
    ensures Decimal(n)[0] == '0' <==> n == 0
  {
    if n >= 10 {
      DecimalNoLeadingZero(n / 10);
      assert Decimal(n)[0] == Decimal(n / 10)[0];
    }
  }

  /** The number a string of decimal digits denotes. */
  function DigitsValue(s: string): nat
    requires IsDigits(s)
  {
    if s == [] then 0 else DigitsValue(s[..|s| - 1]) * 10 + (s[|s| - 1] as int - '0' as int)
  }

  /** Reading back what `Decimal` wrote gives the number again. */
  lemma {:induction false} DecimalValue(n: nat)
    ensures DigitsValue(Decimal(n)) == n
  {
    if n >= 10 {
      var s := Decimal(n);
      assert s[..|s| - 1] == Decimal(n / 10);
      DecimalValue(n / 10);
    }
  }

  /** The right-aligned, zero-filled rendering of Python's `format(n, "0<width>d")`. */
  function ZeroPad(s: string, width: nat): (r: string)
    ensures |r| == if |s| >= width then |s| else width
    ensures EndsWith(r, s)
    ensures forall i :: 0 <= i < |r| - |s| ==> r[i] == '0'
  {
    var fill := if |s| >= width then 0 else width - |s|;
    var r := seq(fill, _ => '0') + s;
    assert r[|r| - |s|..] == s;
    r
  }

  lemma {:induction false} LeadingZeroValue(s: string)
    requires IsDigits(s)
    ensures DigitsValue(['0'] + s) == DigitsValue(s)
  {
    if s != [] {
      var t := ['0'] + s;
      assert t[..|t| - 1] == ['0'] + s[..|s| - 1];
      LeadingZeroValue(s[..|s| - 1]);
    }
  }

  lemma {:induction false} LeadingZerosValue(k: nat, s: string)
    requires IsDigits(s)
    ensures IsDigits(seq(k, _ => '0') + s)
    ensures DigitsValue(seq(k, _ => '0') + s) == DigitsValue(s)
  {
    if k > 0 {
      var t := seq(k - 1, _ => '0') + s;
      assert seq(k, _ => '0') + s == ['0'] + t;
      LeadingZerosValue(k - 1, s);
      LeadingZeroValue(t);
    } else {
      assert seq(k, _ => '0') + s == s;
    }
  }

  /** Zero padding does not change the value of a digit string. */
  lemma ZeroPadValue(s: string, width: nat)
    requires IsDigits(s)
    ensures IsDigits(ZeroPad(s, width)) && DigitsValue(ZeroPad(s, width)) == DigitsValue(s)
  {
    LeadingZerosValue(if |s| >= width then 0 else width - |s|, s);
  }

  /** The text blocks written one after another. */
  function Concat(blocks: seq<string>): string {
    if blocks == [] then "" else Concat(blocks[..|blocks| - 1]) + blocks[|blocks| - 1]
  }

  lemma {:induction false} ConcatAppend(a: seq<string>, b: seq<string>)
    ensures Concat(a + b) == Concat(a) + Concat(b)
    decreases |b|
  {
    if b == [] {
      assert a + b == a;
    } else {
      assert (a + b)[..|a + b| - 1] == a + b[..|b| - 1];
      ConcatAppend(a, b[..|b| - 1]);
    }
  }

  /** Block `k` stands in the concatenation right after blocks `0 .. k - 1`. */
  lemma ConcatOccurs(blocks: seq<string>, k: nat)
    requires k < |blocks|
    ensures Occurs(Concat(blocks), blocks[k], |Concat(blocks[..k])|)
  {
    assert blocks == blocks[..k] + ([blocks[k]] + blocks[k + 1..]);
    ConcatAppend(blocks[..k], [blocks[k]] + blocks[k + 1..]);
    ConcatAppend([blocks[k]], blocks[k + 1..]);
    assert Concat([blocks[k]]) == blocks[k] by {
      assert [blocks[k]][..0] == [];
    }
  }

  /** Later blocks start later: the offset of block `k` grows with `k`. */
  lemma ConcatOffsetsGrow(blocks: seq<string>, j: nat, k: nat)
    requires j <= k <= |blocks|
    ensures |Concat(blocks[..j])| + |Concat(blocks[j..k])| == |Concat(blocks[..k])|
    ensures j < k ==> |Concat(blocks[..j])| + |blocks[j]| <= |Concat(blocks[..k])|
  {
    assert blocks[..k] == blocks[..j] + blocks[j..k];
    ConcatAppend(blocks[..j], blocks[j..k]);
    if j < k {
      assert blocks[j..k] == [blocks[j]] + blocks[j + 1..k];
      ConcatAppend([blocks[j]], blocks[j + 1..k]);
      assert Concat([blocks[j]]) == blocks[j] by {
        assert [blocks[j]][..0] == [];
      }
    }
  }

  /** A piece of a piece of `s` is a piece of `s`. */
  lemma OccursWithin(s: string, u: string, off: int, w: string, i: int)
    requires Occurs(s, u, off) && Occurs(u, w, i)
    ensures Occurs(s, w, off + i)
  {
    forall m | 0 <= m < |w|
      ensures s[off + i + m] == w[m]
    {
      assert s[off..off + |u|][i + m] == u[i + m];
      assert u[i..i + |w|][m] == w[m];
    }
    assert s[off + i..off + i + |w|] == w;
  }

  /** Every text occurs in itself at the start. */
  lemma OccursSelf(w: string)
    ensures Occurs(w, w, 0)
  {
    assert w[0..|w|] == w;
  }

  /** Where an occurrence inside block `k` lands in the concatenation. */
  lemma OccursInConcat(blocks: seq<string>, k: nat, w: string, i: int)
    requires k < |blocks| && Occurs(blocks[k], w, i)
    ensures Occurs(Concat(blocks), w, |Concat(blocks[..k])| + i)
  {
    ConcatOccurs(blocks, k);
    OccursWithin(Concat(blocks), blocks[k], |Concat(blocks[..k])|, w, i);
  }

  /** What occurs in an earlier block comes before what occurs in a later one. */
  lemma InOrderInConcat(blocks: seq<string>, k1: nat, w1: string, i1: int, k2: nat, w2: string, i2: int)
    requires k1 < k2 < |blocks| && Occurs(blocks[k1], w1, i1) && Occurs(blocks[k2], w2, i2)
    ensures InOrder(Concat(blocks), w1, w2)
  {
    OccursInConcat(blocks, k1, w1, i1);
    OccursInConcat(blocks, k2, w2, i2);
    ConcatOffsetsGrow(blocks, k1, k2);
  }

  /** Order inside a piece of `s` is order in `s`. */
  lemma InOrderWithin(s: string, u: string, off: int, w1: string, w2: string)
    requires Occurs(s, u, off) && InOrder(u, w1, w2)
    ensures InOrder(s, w1, w2)
  {
    var i, j :| Occurs(u, w1, i) && Occurs(u, w2, j) && i + |w1| <= j;
    OccursWithin(s, u, off, w1, i);
    OccursWithin(s, u, off, w2, j);
  }

  /** Order inside one block is order in the concatenation. */
  /** Block `k` of a concatenation framed by `a` and `c` sits after `a` and
      the blocks before it. */
  lemma ConcatOccursAmid(a: string, blocks: seq<string>, c: string, k: nat)
    requires k < |blocks|
    ensures Occurs(a + Concat(blocks) + c, blocks[k], |a| + |Concat(blocks[..k])|)
  {
    ConcatOccurs(blocks, k);
    MiddleOccurs(a, Concat(blocks), c);
    OccursWithin(a + Concat(blocks) + c, Concat(blocks), |a|, blocks[k], |Concat(blocks[..k])|);
  }

  lemma InOrderInBlock(blocks: seq<string>, k: nat, w1: string, w2: string)
    requires k < |blocks| && InOrder(blocks[k], w1, w2)
    ensures InOrder(Concat(blocks), w1, w2)
  {
    ConcatOccurs(blocks, k);
    InOrderWithin(Concat(blocks), blocks[k], |Concat(blocks[..k])|, w1, w2);
  }

  /** The concatenation starts with the first block and ends with the last. */
  lemma ConcatEnds(blocks: seq<string>)
    requires blocks != []
    ensures StartsWith(Concat(blocks), blocks[0])
    ensures EndsWith(Concat(blocks), blocks[|blocks| - 1])
  {
    ConcatOccurs(blocks, 0);
    assert blocks[..0] == [];
  }

  lemma StartsWithin(s: string, u: string, w: string)
    requires StartsWith(s, u) && StartsWith(u, w)
    ensures StartsWith(s, w)
  {
    assert s[..|w|] == s[..|u|][..|w|];
  }

  lemma EndsWithin(s: string, u: string, w: string)
    requires EndsWith(s, u) && EndsWith(u, w)
    ensures EndsWith(s, w)
  {
    assert s[|s| - |w|..] == s[|s| - |u|..][|u| - |w|..];
  }

  lemma Ends(a: string, b: string)
    ensures StartsWith(a + b, a) && EndsWith(a + b, b)
  {
    assert (a + b)[..|a|] == a;
    assert (a + b)[|a + b| - |b|..] == b;
  }

  /** Of three pieces in a row: the middle one after the first, the first at
      the start and the last at the end. */
  lemma MiddleOccurs(a: string, b: string, c: string)
    ensures Occurs(a + b + c, b, |a|)
    ensures StartsWith(a + b + c, a) && EndsWith(a + b + c, c)
  {
    assert (a + b + c)[|a|..|a| + |b|] == b;
    assert (a + b + c)[..|a|] == a;
    assert (a + b + c)[|a + b + c| - |c|..] == c;
  }
}
