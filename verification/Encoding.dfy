/** Byte strings, UTF-8, the hexadecimal form of digests, and the order in which
    Python sorts strings. Everything the Merkle code does between a `str` and the
    bytes it hashes. */
module Encoding {
  import opened Results

  newtype byte = x: int | 0 <= x < 256

  type Bytes = seq<byte>

  type Digest = d: Bytes | |d| == 32 witness seq(32, i => 0 as byte)

  // ----- UTF-8 -----

  /** The low six bits of `n` as a continuation byte. */
  function Continuation(n: int): byte {
    (0x80 + n % 64) as byte
  }

  function EncodeChar(c: char): (r: Bytes)
    ensures 1 <= |r| <= 4
  {
    var n := c as int;
    var n6 := n / 64;
    var n12 := n6 / 64;
    if n < 0x80 then [n as byte]
    else if n < 0x800 then [(0xC0 + n6) as byte, Continuation(n)]
    else if n < 0x10000 then [(0xE0 + n12) as byte, Continuation(n6), Continuation(n)]
    else [(0xF0 + n12 / 64) as byte, Continuation(n12), Continuation(n6), Continuation(n)]
  }

  function Utf8(s: string): Bytes {
    if s == "" then [] else EncodeChar(s[0]) + Utf8(s[1..])
  }

  lemma EncodeCharLead(c: char)
    ensures |EncodeChar(c)| == 1 <==> EncodeChar(c)[0] < 0x80
    ensures |EncodeChar(c)| == 2 <==> 0xC0 <= EncodeChar(c)[0] < 0xE0
    ensures |EncodeChar(c)| == 3 <==> 0xE0 <= EncodeChar(c)[0] < 0xF0
    ensures |EncodeChar(c)| == 4 <==> 0xF0 <= EncodeChar(c)[0]
  {
  }

  lemma ContinuationInjective(m: int, n: int)
    requires m / 64 == n / 64 && Continuation(m) == Continuation(n)
    ensures m == n
  {
    assert m % 64 == n % 64;
  }

  lemma EncodeCharInjective(a: char, b: char)
    requires EncodeChar(a) == EncodeChar(b)
    ensures a == b
  {
    EncodeCharLead(a);
    EncodeCharLead(b);
    var x, y := EncodeChar(a), EncodeChar(b);
    var m, n := a as int, b as int;
    if |x| == 1 {
      assert x[0] as int == m && y[0] as int == n;
    } else if |x| == 2 {
      assert x[0] as int == 0xC0 + m / 64 && y[0] as int == 0xC0 + n / 64;
      assert x[1] == Continuation(m) && y[1] == Continuation(n);
      ContinuationInjective(m, n);
    } else if |x| == 3 {
      assert x[0] as int == 0xE0 + m / 64 / 64 && y[0] as int == 0xE0 + n / 64 / 64;
      assert x[1] == Continuation(m / 64) && y[1] == Continuation(n / 64);
      assert x[2] == Continuation(m) && y[2] == Continuation(n);
      ContinuationInjective(m / 64, n / 64);
      ContinuationInjective(m, n);
    } else {
      assert x[0] as int == 0xF0 + m / 64 / 64 / 64 && y[0] as int == 0xF0 + n / 64 / 64 / 64;
      assert x[1] == Continuation(m / 64 / 64) && y[1] == Continuation(n / 64 / 64);
      assert x[2] == Continuation(m / 64) && y[2] == Continuation(n / 64);
      assert x[3] == Continuation(m) && y[3] == Continuation(n);
      ContinuationInjective(m / 64 / 64, n / 64 / 64);
      ContinuationInjective(m / 64, n / 64);
      ContinuationInjective(m, n);
    }
  }

  /** Distinct strings have distinct encodings, so hashing the encoding of a leaf
      confuses two leaves only if the hash itself collides. */
  lemma {:induction false} Utf8Injective(s: string, t: string)
    requires Utf8(s) == Utf8(t)
    ensures s == t
  {
    if s != "" && t != "" {
      var x, y := EncodeChar(s[0]), EncodeChar(t[0]);
      EncodeCharLead(s[0]);
      EncodeCharLead(t[0]);
      assert Utf8(s)[0] == x[0] && Utf8(t)[0] == y[0];
      assert |x| == |y|;
      assert x == Utf8(s)[..|x|] && y == Utf8(t)[..|y|];
      EncodeCharInjective(s[0], t[0]);
      assert Utf8(s[1..]) == Utf8(s)[|x|..] && Utf8(t[1..]) == Utf8(t)[|y|..];
      Utf8Injective(s[1..], t[1..]);
      assert s == [s[0]] + s[1..] && t == [t[0]] + t[1..];
    }
  }

  /** The payload of a continuation byte. */
  function Payload(b: byte): int {
    b as int - 0x80
  }

  /** The encoding of section 3 of RFC 3629: the range of the code point gives the number of bytes, the lead
      byte says it, and the payloads spell the code point in base 64. */
  lemma EncodeCharReads(c: char)
    ensures var n, b: Bytes := c as int, EncodeChar(c);
            && (forall i :: 1 <= i < |b| ==> 0x80 <= b[i] < 0xC0)
            && (n < 0x80 ==> b == [n as byte])
            && (0x80 <= n < 0x800 ==> |b| == 2 && 0xC0 <= b[0] < 0xE0 && n == 64 * (b[0] as int - 0xC0) + Payload(b[1]))
            && (0x800 <= n < 0x10000 ==>
                  |b| == 3 && 0xE0 <= b[0] < 0xF0 && n == 64 * (64 * (b[0] as int - 0xE0) + Payload(b[1])) + Payload(b[2]))
            && (0x10000 <= n ==>
                  |b| == 4 && 0xF0 <= b[0]
                  && n == 64 * (64 * (64 * (b[0] as int - 0xF0) + Payload(b[1])) + Payload(b[2])) + Payload(b[3]))
  {
    var n := c as int;
    var n6 := n / 64;
    var n12 := n6 / 64;
    assert n == 64 * n6 + n % 64 && n6 == 64 * n12 + n6 % 64 && n12 == 64 * (n12 / 64) + n12 % 64;
  }

  lemma {:induction false} Utf8Joins(s: string, t: string)
    ensures Utf8(s + t) == Utf8(s) + Utf8(t)
  {
    hide EncodeChar;
    if s == "" {
      assert s + t == t;
    } else {
      Utf8Joins(s[1..], t);
      assert (s + t)[1..] == s[1..] + t;
    }
  }

  // ----- Hexadecimal -----

  /** The value of a hexadecimal digit of either case, -1 for any other character. */
  function HexValue(c: char): int {
    if '0' <= c <= '9' then c as int - '0' as int
    else if 'a' <= c <= 'f' then c as int - 'a' as int + 10
    else if 'A' <= c <= 'F' then c as int - 'A' as int + 10
    else -1
  }

  predicate IsSpace(c: char) {
    c == ' ' || 9 <= c as int <= 13
  }

  function HexChar(n: int): (c: char)
    requires 0 <= n < 16
    ensures HexValue(c) == n && !IsSpace(c)
  {
    if n < 10 then ('0' as int + n) as char else ('a' as int + n - 10) as char
  }

  /** `bytes.fromhex`: white space may separate the pairs, either case is read, and
      anything else is a ValueError. */
  function FromHex(s: string): Option<Bytes> {
    if s == "" then Some([])
    else if IsSpace(s[0]) then FromHex(s[1..])
    else if |s| >= 2 && HexValue(s[0]) >= 0 && HexValue(s[1]) >= 0 then
      match FromHex(s[2..])
      case Some(rest) => Some([(16 * HexValue(s[0]) + HexValue(s[1])) as byte] + rest)
      case None => None
    else None
  }

  function HexByte(x: byte): (s: string)
    ensures |s| == 2
  {
    [HexChar(x as int / 16), HexChar(x as int % 16)]
  }

  lemma FromHexCons(x: byte, rest: string)
    ensures FromHex(HexByte(x) + rest) == match FromHex(rest) case Some(b) => Some([x] + b) case None => None
  {
    var s := HexByte(x) + rest;
    assert s[0] == HexChar(x as int / 16) && s[1] == HexChar(x as int % 16) && s[2..] == rest;
    assert 16 * HexValue(s[0]) + HexValue(s[1]) == x as int;
  }

  /** `bytes.hex`, always lower case. */
  function Hex(b: Bytes): (s: string)
    ensures FromHex(s) == Some(b)
    ensures |s| == 2 * |b|
  {
    if b == [] then "" else
      FromHexCons(b[0], Hex(b[1..]));
      assert b == [b[0]] + b[1..];
      HexByte(b[0]) + Hex(b[1..])
  }

  lemma HexInjective(a: Bytes, b: Bytes)
    requires Hex(a) == Hex(b)
    ensures a == b
  {
    assert FromHex(Hex(a)) == FromHex(Hex(b));
  }

  const HEX_DIGITS := "0123456789abcdef"

  lemma HexCharIsDigit(n: int)
    requires 0 <= n < 16
    ensures HexChar(n) == HEX_DIGITS[n]
  {
  }

  /** Two lower-case digits a byte, the high one first. */
  lemma {:induction false} HexDigits(b: Bytes, i: nat)
    requires i < |b|
    ensures Hex(b)[2 * i] == HEX_DIGITS[b[i] as int / 16] && Hex(b)[2 * i + 1] == HEX_DIGITS[b[i] as int % 16]
  {
    hide FromHex, HexChar;
    if i == 0 {
      HexCharIsDigit(b[0] as int / 16);
      HexCharIsDigit(b[0] as int % 16);
    } else {
      HexDigits(b[1..], i - 1);
    }
  }

  function Lower(c: char): char {
    if 'A' <= c <= 'Z' then (c as int + 32) as char else c
  }

  /** A string without its white space, in lower case. */
  function Compact(s: string): string {
    if s == "" then ""
    else if s[0] == ' ' || 9 <= s[0] as int <= 13 then Compact(s[1..])
    else [Lower(s[0])] + Compact(s[1..])
  }

  lemma LowerDigit(c: char)
    ensures HexValue(c) >= 0 ==> 0 <= HexValue(c) < 16 && Lower(c) == HexChar(HexValue(c)) && !IsSpace(c)
  {
  }

  /** Whatever is decoded is the hexadecimal form of the result, but for white space and case. */
  lemma {:induction false} FromHexReads(s: string)
    ensures FromHex(s).Some? ==> Compact(s) == Hex(FromHex(s).value)
  {
    if s != "" {
      if IsSpace(s[0]) {
        FromHexReads(s[1..]);
      } else if FromHex(s).Some? {
        FromHexReads(s[2..]);
        LowerDigit(s[0]);
        LowerDigit(s[1]);
        var b := FromHex(s).value;
        assert b[1..] == FromHex(s[2..]).value;
        assert b[0] as int / 16 == HexValue(s[0]) && b[0] as int % 16 == HexValue(s[1]);
        assert s[1..][1..] == s[2..];
        assert Compact(s) == [Lower(s[0])] + ([Lower(s[1])] + Compact(s[2..]));
      }
    }
  }

  lemma HexValueOfLower(c: char, n: int)
    requires 0 <= n < 16 && Lower(c) == HexChar(n)
    ensures HexValue(c) == n
  {
  }

  lemma {:induction false} CompactShortens(s: string)
    ensures |Compact(s)| <= |s|
  {
    if s != "" {
      CompactShortens(s[1..]);
    }
  }

  lemma CompactPair(s: string)
    requires |s| >= 2 && |Compact(s)| == |s|
    ensures !IsSpace(s[0]) && !IsSpace(s[1]) && |Compact(s[2..])| == |s| - 2
    ensures Compact(s) == [Lower(s[0]), Lower(s[1])] + Compact(s[2..])
  {
    CompactShortens(s[1..]);
    CompactShortens(s[2..]);
    assert s[1..][1..] == s[2..];
  }

  /** And either case is decoded. */
  lemma {:induction false} FromHexAccepts(s: string, b: Bytes)
    requires |s| == 2 * |b| && Compact(s) == Hex(b)
    ensures FromHex(s) == Some(b)
  {
    hide Compact, Lower, HexValue, HexChar, IsSpace;
    if b != [] {
      CompactPair(s);
      assert Compact(s)[2..] == Compact(s[2..]) && Hex(b)[2..] == Hex(b[1..]);
      assert Compact(s)[0] == Lower(s[0]) && Compact(s)[1] == Lower(s[1]);
      HexValueOfLower(s[0], b[0] as int / 16);
      HexValueOfLower(s[1], b[0] as int % 16);
      FromHexAccepts(s[2..], b[1..]);
      assert b == [b[0]] + b[1..];
    }
  }

  // ----- Sorting -----

  /** Python's `<` on strings: lexicographic by code point. */
  predicate StringLess(s: string, t: string) {
    t != "" && (s == "" || s[0] < t[0] || (s[0] == t[0] && StringLess(s[1..], t[1..])))
  }

  lemma {:induction false} StringLessTotal(s: string, t: string)
    ensures s != t ==> (StringLess(s, t) <==> !StringLess(t, s))
    ensures s == t ==> !StringLess(s, t)
  {
    if s != "" && t != "" {
      StringLessTotal(s[1..], t[1..]);
      assert s == [s[0]] + s[1..] && t == [t[0]] + t[1..];
    }
  }

  /** `s` ends before `t` does, or has the smaller character where they first differ. */
  predicate StringBefore(s: string, t: string) {
    exists k :: 0 <= k < |t| && k <= |s| && s[..k] == t[..k] && (k == |s| || s[k] < t[k])
  }

  lemma {:induction false} StringLessIs(s: string, t: string)
    ensures StringLess(s, t) <==> StringBefore(s, t)
  {
    if s == "" || t == "" {
      assert s == "" && t != "" ==> s[..0] == t[..0];
    } else {
      StringLessIs(s[1..], t[1..]);
      if StringBefore(s, t) {
        var k :| 0 <= k < |t| && k <= |s| && s[..k] == t[..k] && (k == |s| || s[k] < t[k]);
        if k > 0 {
          assert s[..k][0] == t[..k][0];
          assert s[1..][..k - 1] == s[..k][1..] == t[..k][1..] == t[1..][..k - 1];
        }
      }
      if StringLess(s, t) {
        if s[0] == t[0] {
          var k :| 0 <= k < |t[1..]| && k <= |s[1..]| && s[1..][..k] == t[1..][..k] && (k == |s[1..]| || s[1..][k] < t[1..][k]);
          assert s[..k + 1] == [s[0]] + s[1..][..k] == [t[0]] + t[1..][..k] == t[..k + 1];
        } else {
          assert s[..0] == t[..0];
        }
      }
    }
  }

  /** `lo` has the smaller byte where the two first differ. */
  predicate BytesBefore(lo: Bytes, hi: Bytes) {
    exists k :: 0 <= k < |lo| && k < |hi| && lo[..k] == hi[..k] && lo[k] < hi[k]
  }

  lemma PrefixAgrees(a: Bytes, b: Bytes, j: nat, k: nat)
    requires k < j <= |a| && j <= |b| && a[..j] == b[..j]
    ensures a[k] == b[k]
  {
    assert a[..j][k] == a[k];
  }

  lemma FirstDifference(a: Bytes, b: Bytes, j: nat, k: nat)
    requires j < |a| && j < |b| && k < |a| && k < |b|
    requires a[..j] == b[..j] && a[j] != b[j] && a[..k] == b[..k] && a[k] != b[k]
    ensures j == k
  {
    if k < j {
      PrefixAgrees(a, b, j, k);
    } else if j < k {
      PrefixAgrees(a, b, k, j);
    }
  }

  lemma BeforeIsOneWay(a: Bytes, b: Bytes)
    ensures !(BytesBefore(a, b) && BytesBefore(b, a))
    ensures !BytesBefore(a, a)
  {
    if BytesBefore(a, b) && BytesBefore(b, a) {
      var j :| 0 <= j < |a| && j < |b| && a[..j] == b[..j] && a[j] < b[j];
      var k :| 0 <= k < |a| && k < |b| && b[..k] == a[..k] && b[k] < a[k];
      FirstDifference(a, b, j, k);
    }
  }

  lemma BytesBeforeStep(a: Bytes, b: Bytes)
    requires a != [] && b != []
    ensures BytesBefore(a, b) <==> a[0] < b[0] || (a[0] == b[0] && BytesBefore(a[1..], b[1..]))
  {
    if BytesBefore(a, b) {
      var k :| 0 <= k < |a| && k < |b| && a[..k] == b[..k] && a[k] < b[k];
      if k > 0 {
        assert a[..k][0] == b[..k][0];
        assert a[1..][..k - 1] == a[..k][1..] == b[..k][1..] == b[1..][..k - 1];
      }
    }
    if a[0] < b[0] {
      assert a[..0] == b[..0];
    } else if a[0] == b[0] && BytesBefore(a[1..], b[1..]) {
      var k :| 0 <= k < |a[1..]| && k < |b[1..]| && a[1..][..k] == b[1..][..k] && a[1..][k] < b[1..][k];
      assert a[..k + 1] == [a[0]] + a[1..][..k] == [b[0]] + b[1..][..k] == b[..k + 1];
    }
  }

  lemma HexCharOrder(m: int, n: int)
    requires 0 <= m < 16 && 0 <= n < 16
    ensures HexChar(m) < HexChar(n) <==> m < n
    ensures HexChar(m) == HexChar(n) <==> m == n
  {
  }

  lemma ByteOrder(x: byte, y: byte)
    ensures x < y <==> x as int / 16 < y as int / 16 || (x as int / 16 == y as int / 16 && x as int % 16 < y as int % 16)
    ensures x == y <==> x as int / 16 == y as int / 16 && x as int % 16 == y as int % 16
  {
  }

  /** Sorting hexadecimal forms sorts the bytes. */
  lemma {:induction false} HexOrder(a: Bytes, b: Bytes)
    requires |a| == |b|
    ensures StringLess(Hex(a), Hex(b)) <==> BytesBefore(a, b)
  {
    if a != [] {
      HexOrder(a[1..], b[1..]);
      BytesBeforeStep(a, b);
      ByteOrder(a[0], b[0]);
      HexCharOrder(a[0] as int / 16, b[0] as int / 16);
      HexCharOrder(a[0] as int % 16, b[0] as int % 16);
      var s, t := Hex(a), Hex(b);
      assert s[1..][1..] == Hex(a[1..]) && t[1..][1..] == Hex(b[1..]);
      assert StringLess(s, t) <==> s[0] < t[0] || (s[0] == t[0] && StringLess(s[1..], t[1..]));
      assert StringLess(s[1..], t[1..]) <==> s[1] < t[1] || (s[1] == t[1] && StringLess(Hex(a[1..]), Hex(b[1..])));
    }
  }
}
