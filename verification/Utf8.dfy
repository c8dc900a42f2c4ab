/** Go compares strings and takes their length by their UTF-8 bytes.  The models work on scalar
    values instead; here both are shown to agree. */
module Utf8 {
  import opened GoText

  /** The UTF-8 encoding of a scalar value, section 3 of RFC 3629. */
  function Encode(c: char): seq<int> {
    var n := c as int;
    if n < 0x80 then [n]
    else if n < 0x800 then [0xC0 + n / 0x40, 0x80 + n % 0x40]
    else if n < 0x10000 then [0xE0 + n / 0x1000, 0x80 + n / 0x40 % 0x40, 0x80 + n % 0x40]
    else [0xF0 + n / 0x40000, 0x80 + n / 0x1000 % 0x40, 0x80 + n / 0x40 % 0x40, 0x80 + n % 0x40]
  }

  function Bytes(s: string): seq<int> {
    if s == [] then [] else Encode(s[0]) + Bytes(s[1..])
  }

  /** Go's `len` is the number of bytes. */
  lemma {:induction false} ByteLenExactly(s: string)
    ensures ByteLen(s) == |Bytes(s)|
  {
    if s != [] {
      ByteLenExactly(s[1..]);
    }
  }

  /** Lexicographic order of byte strings. */
  predicate BytesLess(a: seq<int>, b: seq<int>) {
    b != [] && (a == [] || a[0] < b[0] || (a[0] == b[0] && BytesLess(a[1..], b[1..])))
  }

  lemma {:induction false} CommonPrefix(p: seq<int>, x: seq<int>, y: seq<int>)
    ensures BytesLess(p + x, p + y) <==> BytesLess(x, y)
  {
    if p == [] {
      assert p + x == x && p + y == y;
    } else {
      assert (p + x)[1..] == p[1..] + x && (p + y)[1..] == p[1..] + y;
      CommonPrefix(p[1..], x, y);
    }
  }

  lemma {:induction false} FirstDifference(a: seq<int>, b: seq<int>, k: nat)
    requires k < |a| && k < |b| && a[..k] == b[..k] && a[k] < b[k]
    ensures BytesLess(a, b) && !BytesLess(b, a)
  {
    if k > 0 {
      assert a[0] == a[..k][0] == b[..k][0] == b[0];
      assert a[1..][..k - 1] == a[..k][1..] == b[..k][1..] == b[1..][..k - 1];
      FirstDifference(a[1..], b[1..], k - 1);
    }
  }

  lemma Digits(m: nat, n: nat)
    requires m < n
    ensures m / 0x40 < n / 0x40 || (m / 0x40 == n / 0x40 && m % 0x40 < n % 0x40)
  {
  }

  lemma Shifts(n: nat)
    ensures n / 0x1000 == n / 0x40 / 0x40 && n / 0x40000 == n / 0x1000 / 0x40
  {
  }

  /** The six-bit digits of a smaller number are lexicographically smaller. */
  lemma ThreeDigits(m: nat, n: nat)
    requires m < n
    ensures || m / 0x1000 < n / 0x1000
            || (m / 0x1000 == n / 0x1000 && m / 0x40 % 0x40 < n / 0x40 % 0x40)
            || (m / 0x1000 == n / 0x1000 && m / 0x40 % 0x40 == n / 0x40 % 0x40 && m % 0x40 < n % 0x40)
  {
    Shifts(m);
    Shifts(n);
    Digits(m, n);
    if m / 0x40 < n / 0x40 {
      Digits(m / 0x40, n / 0x40);
    }
  }

  lemma FourDigits(m: nat, n: nat)
    requires m < n
    ensures || m / 0x40000 < n / 0x40000
            || (m / 0x40000 == n / 0x40000 &&
                (|| m / 0x1000 % 0x40 < n / 0x1000 % 0x40
                 || (m / 0x1000 % 0x40 == n / 0x1000 % 0x40 &&
                     (m / 0x40 % 0x40 < n / 0x40 % 0x40 ||
                      (m / 0x40 % 0x40 == n / 0x40 % 0x40 && m % 0x40 < n % 0x40)))))
  {
    Shifts(m);
    Shifts(n);
    ThreeDigits(m, n);
    if m / 0x1000 < n / 0x1000 {
      Digits(m / 0x1000, n / 0x1000);
    }
  }

  /** Where the encodings of two scalar values differ first, the smaller value has the smaller byte. */
  lemma EncodeDiffers(c: char, d: char) returns (k: nat)
    requires c < d
    ensures k < |Encode(c)| && k < |Encode(d)| && Encode(c)[..k] == Encode(d)[..k] && Encode(c)[k] < Encode(d)[k]
  {
    var m, n := c as int, d as int;
    if m < 0x80 || (m < 0x800 <= n) || (m < 0x10000 <= n) {
      k := 0;
      FirstByte(c, d);
    } else if n < 0x800 {
      Digits(m, n);
      k := if Encode(c)[0] < Encode(d)[0] then 0 else 1;
    } else if n < 0x10000 {
      k := ThreeBytes(c, d);
    } else {
      k := FourBytes(c, d);
    }
  }

  /** More bytes, greater first byte. */
  lemma FirstByte(c: char, d: char)
    requires c < d
    requires c as int < 0x80 || c as int < 0x800 <= d as int || c as int < 0x10000 <= d as int
    ensures Encode(c)[0] < Encode(d)[0]
  {
  }

  lemma ThreeBytes(c: char, d: char) returns (k: nat)
    requires 0x800 <= c as int < d as int < 0x10000
    ensures k < 3 && |Encode(c)| == |Encode(d)| == 3
    ensures Encode(c)[..k] == Encode(d)[..k] && Encode(c)[k] < Encode(d)[k]
  {
    ThreeDigits(c as int, d as int);
    var a, b := Encode(c), Encode(d);
    k := if a[0] < b[0] then 0 else if a[1] < b[1] then 1 else 2;
    assert forall i :: 0 <= i < k ==> a[i] == b[i];
  }

  lemma FourBytes(c: char, d: char) returns (k: nat)
    requires 0x10000 <= c as int < d as int
    ensures k < 4 && |Encode(c)| == |Encode(d)| == 4
    ensures Encode(c)[..k] == Encode(d)[..k] && Encode(c)[k] < Encode(d)[k]
  {
    FourDigits(c as int, d as int);
    var a, b := Encode(c), Encode(d);
    k := if a[0] < b[0] then 0 else if a[1] < b[1] then 1 else if a[2] < b[2] then 2 else 3;
    assert forall i :: 0 <= i < k ==> a[i] == b[i];
  }

  /** The order of the models is Go's order of the bytes. */
  lemma {:induction false} LessIsBytewise(a: string, b: string)
    ensures Less(a, b) <==> BytesLess(Bytes(a), Bytes(b))
  {
    if a != [] && b != [] {
      if a[0] == b[0] {
        LessIsBytewise(a[1..], b[1..]);
        CommonPrefix(Encode(a[0]), Bytes(a[1..]), Bytes(b[1..]));
      } else if a[0] < b[0] {
        var k := EncodeDiffers(a[0], b[0]);
        Leading(Encode(a[0]), Bytes(a[1..]), Encode(b[0]), Bytes(b[1..]), k);
      } else {
        var k := EncodeDiffers(b[0], a[0]);
        Leading(Encode(b[0]), Bytes(b[1..]), Encode(a[0]), Bytes(a[1..]), k);
      }
    }
  }

  lemma Leading(a: seq<int>, x: seq<int>, b: seq<int>, y: seq<int>, k: nat)
    requires k < |a| && k < |b| && a[..k] == b[..k] && a[k] < b[k]
    ensures BytesLess(a + x, b + y) && !BytesLess(b + y, a + x)
  {
    assert (a + x)[..k] == a[..k] && (b + y)[..k] == b[..k];
    FirstDifference(a + x, b + y, k);
  }
}
