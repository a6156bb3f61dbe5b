/** UTF-8 (section 3 of RFC 3629) and the two orders on keys: by Unicode scalar value and by
    encoded byte. */
module Utf8 {
  import opened Wire

  function EncodeChar(c: char): (bs: seq<Byte>)
    ensures 1 <= |bs| <= 4
  {
    var n := c as int;
    if n < 0x80 then [n]
    else if n < 0x800 then [0xC0 + n / 64, 0x80 + n % 64]
    else if n < 0x10000 then [0xE0 + n / 4096, 0x80 + n / 64 % 64, 0x80 + n % 64]
    else [0xF0 + n / 262144, 0x80 + n / 4096 % 64, 0x80 + n / 64 % 64, 0x80 + n % 64]
  }

  function Encode(s: string): Bytes {
    if s == [] then [] else EncodeChar(s[0]) + Encode(s[1..])
  }

  // ---- the bit patterns ----

  /** A byte with the given leading bits, and its payload of `width` values. */
  predicate Leads(b: int, prefix: int, width: int)
    requires width > 0
  {
    b / width == prefix
  }

  function Payload(b: int, width: int): int
    requires width > 0
  {
    b % width
  }

  predicate Continues(b: int) {
    Leads(b, 2, 64)
  }

  /** The table of section 3: the scalar value read back from the payload bits, for the byte
      patterns 0xxxxxxx, 110xxxxx 10xxxxxx, and so on, each for its own range of values. */
  predicate Denotes(bs: seq<Byte>, n: nat) {
    if n <= 0x7F then bs == [n]
    else if n <= 0x7FF then
      && |bs| == 2 && Leads(bs[0], 6, 32) && Continues(bs[1])
      && n == Payload(bs[0], 32) * 64 + Payload(bs[1], 64)
    else if n <= 0xFFFF then
      && |bs| == 3 && Leads(bs[0], 14, 16) && Continues(bs[1]) && Continues(bs[2])
      && n == (Payload(bs[0], 16) * 64 + Payload(bs[1], 64)) * 64 + Payload(bs[2], 64)
    else
      && |bs| == 4 && Leads(bs[0], 30, 8) && Continues(bs[1]) && Continues(bs[2]) && Continues(bs[3])
      && n == ((Payload(bs[0], 8) * 64 + Payload(bs[1], 64)) * 64 + Payload(bs[2], 64)) * 64 + Payload(bs[3], 64)
  }

  lemma PatternByte(prefix: nat, width: nat, payload: nat)
    requires width > 0 && payload < width
    ensures Leads(prefix * width + payload, prefix, width) && Payload(prefix * width + payload, width) == payload
  {
    var b := prefix * width + payload;
    assert b == b / width * width + b % width;
    OneQuotient(width, b / width, b % width, prefix, payload);
  }

  lemma OneQuotient(width: nat, q: int, r: nat, q': int, r': nat)
    requires r < width && r' < width && q * width + r == q' * width + r'
    ensures q == q' && r == r'
  {
    assert (q - q') * width == r' - r;
    if q > q' {
      assert (q - q') * width == (q - q' - 1) * width + width;
      NotNegative(q - q' - 1, width);
    } else if q < q' {
      assert (q' - q) * width == (q' - q - 1) * width + width;
      NotNegative(q' - q - 1, width);
    }
  }

  lemma NotNegative(a: nat, b: nat)
    ensures a * b >= 0
  {
  }

  /** Every character is encoded by the pattern of its range. */
  lemma EncodeCharDenotes(c: char)
    ensures Denotes(EncodeChar(c), c as int)
  {
    var n := c as int;
    Digits(n);
    PatternByte(2, 64, n % 64);
    PatternByte(2, 64, n / 64 % 64);
    PatternByte(2, 64, n / 4096 % 64);
    if n <= 0x7F {
    } else if n <= 0x7FF {
      PatternByte(6, 32, n / 64);
    } else if n <= 0xFFFF {
      PatternByte(14, 16, n / 4096);
    } else {
      PatternByte(30, 8, n / 262144);
    }
  }

  /** And strings are encoded character by character. */
  lemma {:induction false} EncodeAppends(a: string, b: string)
    ensures Encode(a + b) == Encode(a) + Encode(b)
    ensures |a| == 1 ==> Encode(a) == EncodeChar(a[0])
  {
    if a == "" {
      assert a + b == b;
    } else {
      EncodeAppends(a[1..], b);
      assert (a + b)[0] == a[0] && (a + b)[1..] == a[1..] + b;
      assert |a| == 1 ==> a[1..] == "";
    }
  }

  /** Strict lexicographic order; a proper prefix comes first. */
  predicate ByteLess(a: Bytes, b: Bytes) {
    b != [] && (a == [] || a[0] < b[0] || (a[0] == b[0] && ByteLess(a[1..], b[1..])))
  }

  predicate TextLess(a: string, b: string) {
    b != [] && (a == [] || a[0] < b[0] || (a[0] == b[0] && TextLess(a[1..], b[1..])))
  }

  /** The encodings first differ at position `i`, and there `a` is smaller. */
  predicate DivergesAt(a: Bytes, b: Bytes, i: nat) {
    i < |a| && i < |b| && a[..i] == b[..i] && a[i] < b[i]
  }

  /** Numbers with the same high digits are ordered by their low digit. */
  lemma LowDigit(m: nat, n: nat)
    requires m < n && m / 64 == n / 64
    ensures m % 64 < n % 64
  {
  }

  lemma Digits(n: nat)
    ensures n / 64 / 64 == n / 4096 && n / 4096 / 64 == n / 262144
  {
  }

  lemma SameLength(a: char, b: char) returns (i: nat)
    requires a < b && |EncodeChar(a)| == |EncodeChar(b)|
    ensures DivergesAt(EncodeChar(a), EncodeChar(b), i)
  {
    var m, n := a as int, b as int;
    var length := |EncodeChar(a)|;
    Digits(m);
    Digits(n);
    if length == 1 {
      i := 0;
    } else if m / 64 == n / 64 {
      LowDigit(m, n);
      i := length - 1;
    } else if length == 2 {
      i := 0;
    } else if m / 4096 == n / 4096 {
      LowDigit(m / 64, n / 64);
      i := length - 2;
    } else if length == 3 {
      i := 0;
    } else if m / 262144 == n / 262144 {
      LowDigit(m / 4096, n / 4096);
      i := 1;
    } else {
      i := 0;
    }
  }

  lemma CharsDiverge(a: char, b: char) returns (i: nat)
    requires a < b
    ensures DivergesAt(EncodeChar(a), EncodeChar(b), i)
  {
    if |EncodeChar(a)| == |EncodeChar(b)| {
      i := SameLength(a, b);
    } else {
      i := 0;
    }
  }

  lemma {:induction false} DivergenceDecides(a: Bytes, b: Bytes, i: nat, u: Bytes, v: Bytes)
    requires DivergesAt(a, b, i)
    ensures ByteLess(a + u, b + v) && !ByteLess(b + v, a + u)
    decreases i
  {
    assert (a + u)[0] == a[0] && (b + v)[0] == b[0];
    if i > 0 {
      assert a[..i][0] == b[..i][0];
      assert a[1..][..i - 1] == a[..i][1..] && b[1..][..i - 1] == b[..i][1..];
      DivergenceDecides(a[1..], b[1..], i - 1, u, v);
      assert (a + u)[1..] == a[1..] + u && (b + v)[1..] == b[1..] + v;
    }
  }

  lemma {:induction false} CommonPrefix(p: Bytes, u: Bytes, v: Bytes)
    ensures ByteLess(p + u, p + v) <==> ByteLess(u, v)
  {
    if p == [] {
      assert p + u == u && p + v == v;
    } else {
      CommonPrefix(p[1..], u, v);
      assert (p + u)[1..] == p[1..] + u && (p + v)[1..] == p[1..] + v;
    }
  }

  /** Comparing encoded keys byte by byte is comparing the keys by scalar value. */
  lemma {:induction false} ByteOrderIsTextOrder(a: string, b: string)
    ensures ByteLess(Encode(a), Encode(b)) <==> TextLess(a, b)
  {
    if a != [] && b != [] {
      var x, y, u, v := EncodeChar(a[0]), EncodeChar(b[0]), Encode(a[1..]), Encode(b[1..]);
      if a[0] == b[0] {
        ByteOrderIsTextOrder(a[1..], b[1..]);
        CommonPrefix(x, u, v);
      } else if a[0] < b[0] {
        var i := CharsDiverge(a[0], b[0]);
        DivergenceDecides(x, y, i, u, v);
      } else {
        var i := CharsDiverge(b[0], a[0]);
        DivergenceDecides(y, x, i, v, u);
      }
    }
  }

  lemma {:induction false} TextOrderIsStrict(a: string, b: string)
    ensures !(TextLess(a, b) && TextLess(b, a))
    ensures TextLess(a, b) || TextLess(b, a) <==> a != b
  {
    if a != [] && b != [] && a[0] == b[0] {
      TextOrderIsStrict(a[1..], b[1..]);
      assert a == [a[0]] + a[1..] && b == [b[0]] + b[1..];
    }
  }

  lemma {:induction false} TextOrderIsTransitive(a: string, b: string, c: string)
    requires TextLess(a, b) && TextLess(b, c)
    ensures TextLess(a, c)
  {
    if a != [] && a[0] == b[0] && b[0] == c[0] {
      TextOrderIsTransitive(a[1..], b[1..], c[1..]);
    }
  }

  /** Different keys have different encodings. */
  lemma EncodeIsInjective(a: string, b: string)
    requires Encode(a) == Encode(b)
    ensures a == b
  {
    ByteOrderIsTextOrder(a, b);
    ByteOrderIsTextOrder(b, a);
    TextOrderIsStrict(a, b);
    NotBelowItself(Encode(a));
  }

  lemma {:induction false} NotBelowItself(a: Bytes)
    ensures !ByteLess(a, a)
  {
    if a != [] {
      NotBelowItself(a[1..]);
    }
  }

  /** The peer's key order. */
  predicate KeyLess(a: string, b: string) {
    ByteLess(Encode(a), Encode(b))
  }

  /** The range the peer scans: half open, and an empty bound is no bound. */
  predicate InRange(k: string, from: string, to: string) {
    (from == "" || !KeyLess(k, from)) && (to == "" || KeyLess(k, to))
  }
}
