/** Byte strings, their order, and big-endian numbers. */
module ByteStrings {
  type Byte = b: int | 0 <= b < 256
  type Bytes = seq<Byte>

  /** Lexicographic order on unsigned bytes, as std::string and the engine compare keys. */
  predicate Less(a: Bytes, b: Bytes) {
    b != [] && (a == [] || a[0] < b[0] || (a[0] == b[0] && Less(a[1..], b[1..])))
  }

  lemma {:induction false} LessIrreflexive(a: Bytes)
    ensures !Less(a, a)
  {
    if a != [] { LessIrreflexive(a[1..]); }
  }

  lemma {:induction false} LessTrans(a: Bytes, b: Bytes, c: Bytes)
    requires Less(a, b) && Less(b, c)
    ensures Less(a, c)
  {
    if a != [] && a[0] == b[0] == c[0] { LessTrans(a[1..], b[1..], c[1..]); }
  }

  lemma {:induction false} LessTotal(a: Bytes, b: Bytes)
    ensures Less(a, b) || a == b || Less(b, a)
  {
    if a != [] && b != [] && a[0] == b[0] {
      LessTotal(a[1..], b[1..]);
      assert a == [a[0]] + a[1..] && b == [b[0]] + b[1..];
    }
  }

  /** Strings of one length are ordered by all but the last byte, then by the last byte. */
  lemma {:induction false} LessSnoc(a: Bytes, x: Byte, b: Bytes, y: Byte)
    requires |a| == |b|
    ensures Less(a + [x], b + [y]) <==> Less(a, b) || (a == b && x < y)
  {
    var s, t := a + [x], b + [y];
    if a != [] {
      assert s[1..] == a[1..] + [x] && t[1..] == b[1..] + [y];
      LessSnoc(a[1..], x, b[1..], y);
      assert a == [a[0]] + a[1..] && b == [b[0]] + b[1..];
    } else {
      assert s[1..] == [] && t[1..] == [];
    }
  }

  // ----- Big-endian numbers -----

  function Pow256(n: nat): (p: nat)
    ensures p >= 1
  {
    if n == 0 then 1 else 256 * Pow256(n - 1)
  }

  function BigEndian(x: nat, n: nat): (s: Bytes)
    ensures |s| == n
  {
    if n == 0 then [] else BigEndian(x / 256, n - 1) + [x % 256]
  }

  lemma BigEndianSnoc(x: nat, n: nat)
    ensures BigEndian(x, n + 1) == BigEndian(x / 256, n) + [x % 256]
  {
  }

  lemma BigEndianNone(x: nat)
    ensures BigEndian(x, 0) == []
  {
  }

  function FromBigEndian(s: Bytes): nat {
    if s == [] then 0 else 256 * FromBigEndian(s[..|s| - 1]) + s[|s| - 1]
  }

  lemma {:induction false} BigEndianRoundTrip(x: nat, n: nat)
    requires x < Pow256(n)
    ensures FromBigEndian(BigEndian(x, n)) == x
  {
    if n > 0 {
      BigEndianRoundTrip(x / 256, n - 1);
      var s := BigEndian(x, n);
      assert s[..|s| - 1] == BigEndian(x / 256, n - 1);
    }
  }

  /** Numbers and their big-endian strings are ordered alike. */
  lemma {:induction false} BigEndianOrder(x: nat, y: nat, n: nat)
    requires x < Pow256(n) && y < Pow256(n)
    ensures Less(BigEndian(x, n), BigEndian(y, n)) <==> x < y
    ensures BigEndian(x, n) == BigEndian(y, n) ==> x == y
  {
    BigEndianRoundTrip(x, n);
    BigEndianRoundTrip(y, n);
    if n > 0 {
      BigEndianOrder(x / 256, y / 256, n - 1);
      LessSnoc(BigEndian(x / 256, n - 1), x % 256, BigEndian(y / 256, n - 1), y % 256);
    }
  }

  lemma Scale(a: int, b: int, d: int)
    requires a <= b && d >= 0
    ensures a * d <= b * d && (a + 1) * d == a * d + d
  {
  }

  lemma Distribute(p: nat, t: nat, d: nat)
    ensures (256 * p + t) * d == p * (256 * d) + t * d
  {
  }

  lemma DivMod(x: nat, d: nat) returns (q: nat, r: nat)
    requires d > 0
    ensures q == x / d && x == q * d + r && r < d
  {
    q, r := x / d, x % d;
  }

  /** A quotient is the only number whose multiple leaves a remainder below the divisor. */
  lemma Quotient(d: nat, q: nat, r: nat, k: nat, m: nat)
    requires q * d + r == k * d + m && r < d && m < d
    ensures k == q
  {
    if k > q { Scale(q + 1, k, d); Scale(q, q, d); }
    if k < q { Scale(k + 1, q, d); Scale(k, k, d); }
  }

  /** Dividing by `d` and then by 256 leaves one remainder below 256 * d. */
  lemma TwoRemainders(x: nat, d: nat, e: nat) returns (p: nat, low: nat)
    requires d > 0 && e == 256 * d
    ensures p == x / d / 256 && x == p * e + low && low < e
  {
    var q, r := DivMod(x, d);
    var t := q % 256;
    p := q / 256;
    Distribute(p, t, d);
    Scale(t, 255, d);
    Scale(0, t, d);
    low := t * d + r;
  }

  lemma DivideTwice(x: nat, d: nat)
    requires d > 0
    ensures x / d / 256 == x / (256 * d)
  {
    var e := 256 * d;
    var p, low := TwoRemainders(x, d, e);
    var k, m := DivMod(x, e);
    Quotient(e, k, m, p, low);
  }

  /** Shifting right by one more byte. */
  lemma ShiftByte(x: nat, i: nat)
    ensures x / Pow256(i) / 256 == x / Pow256(i + 1)
  {
    DivideTwice(x, Pow256(i));
  }

  lemma PowZero()
    ensures Pow256(0) == 1
  {
  }

  // ----- Ordered enumeration of a finite set of keys -----

  predicate Ascending(s: seq<Bytes>) {
    forall i, j :: 0 <= i < j < |s| ==> Less(s[i], s[j])
  }

  predicate IsLeast(keys: set<Bytes>, k: Bytes) {
    k in keys && forall x :: x in keys && x != k ==> Less(k, x)
  }

  lemma {:induction false} LeastExists(keys: set<Bytes>)
    requires keys != {}
    ensures exists k :: IsLeast(keys, k)
    decreases |keys|
  {
    var a :| a in keys;
    if keys == {a} {
      assert IsLeast(keys, a);
    } else {
      LeastExists(keys - {a});
      var b :| IsLeast(keys - {a}, b);
      LessTotal(a, b);
      var k := if Less(a, b) then a else b;
      forall x | x in keys && x != k ensures Less(k, x) {
        if k == a && x != b { LessTrans(a, b, x); }
      }
      assert IsLeast(keys, k);
    }
  }

  lemma LeastUnique(keys: set<Bytes>, a: Bytes, b: Bytes)
    requires IsLeast(keys, a) && IsLeast(keys, b)
    ensures a == b
  {
    if a != b {
      LessTrans(a, b, a);
      LessIrreflexive(a);
    }
  }

  function Least(keys: set<Bytes>): (k: Bytes)
    requires keys != {}
    ensures IsLeast(keys, k)
  {
    LeastExists(keys);
    assert forall a, b :: IsLeast(keys, a) && IsLeast(keys, b) ==> a == b by {
      forall a, b | IsLeast(keys, a) && IsLeast(keys, b) ensures a == b { LeastUnique(keys, a, b); }
    }
    var k :| k in keys && IsLeast(keys, k);
    k
  }

  /** The keys in ascending order: what an iterator of the engine visits. */
  function Ordered(keys: set<Bytes>): (s: seq<Bytes>)
    ensures Ascending(s) && |s| == |keys|
    ensures forall k :: k in s <==> k in keys
  {
    if keys == {} then []
    else
      var l := Least(keys);
      [l] + Ordered(keys - {l})
  }

  /** There is only one ascending enumeration of a set. */
  lemma {:induction false} AscendingUnique(a: seq<Bytes>, b: seq<Bytes>)
    requires Ascending(a) && Ascending(b)
    requires forall k :: k in a <==> k in b
    ensures a == b
  {
    hide Less;
    if a != [] { assert a[0] in b; }
    if b != [] { assert b[0] in a; }
    if a != [] {
      if a[0] != b[0] {
        LessTrans(a[0], b[0], a[0]);
        LessIrreflexive(a[0]);
      }
      forall k ensures k in a[1..] <==> k in b[1..] {
        TailMembers(a, k);
        TailMembers(b, k);
      }
      AscendingUnique(a[1..], b[1..]);
      assert a == [a[0]] + a[1..] && b == [b[0]] + b[1..];
    }
  }

  lemma TailMembers(a: seq<Bytes>, k: Bytes)
    requires Ascending(a) && a != []
    ensures k in a[1..] <==> k in a && k != a[0]
  {
    LessIrreflexive(a[0]);
  }
}
