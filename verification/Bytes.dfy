/** Unsigned numbers in network byte order. */
module Bytes {

  type byte = n: nat | n < 256

  function Pow256(width: nat): (p: nat)
    ensures p > 0
  {
    if width == 0 then 1 else 256 * Pow256(width - 1)
  }

  lemma Widths()
    ensures Pow256(1) == 0x100 && Pow256(2) == 0x1_0000
    ensures Pow256(4) == 0x1_0000_0000 && Pow256(8) == 0x1_0000_0000_0000_0000
  {
    assert Pow256(1) == 256 * Pow256(0);
    assert Pow256(2) == 256 * Pow256(1);
    assert Pow256(3) == 256 * Pow256(2);
    assert Pow256(4) == 256 * Pow256(3);
    assert Pow256(5) == 256 * Pow256(4);
    assert Pow256(6) == 256 * Pow256(5);
    assert Pow256(7) == 256 * Pow256(6);
    assert Pow256(8) == 256 * Pow256(7);
  }

  function BigEndian(n: nat, width: nat): (s: seq<byte>)
    ensures |s| == width
  {
    if width == 0 then [] else BigEndian(n / 256, width - 1) + [n % 256]
  }

  function Value(s: seq<byte>): (n: nat)
    ensures n < Pow256(|s|)
  {
    if s == [] then 0 else Value(s[..|s| - 1]) * 256 + s[|s| - 1]
  }

  /** What does not fit the width is lost from the top. */
  lemma {:induction false} ValueOfBigEndian(n: nat, width: nat)
    ensures Value(BigEndian(n, width)) == n % Pow256(width)
  {
    if width > 0 {
      var s := BigEndian(n, width);
      assert s[..|s| - 1] == BigEndian(n / 256, width - 1);
      ValueOfBigEndian(n / 256, width - 1);
      DigitsOf(n, Pow256(width - 1));
    }
  }

  lemma DigitsOf(n: nat, p: nat)
    requires p > 0
    ensures n % (256 * p) == (n / 256 % p) * 256 + n % 256
  {
    var q := n / 256;
    var a, b := q / p, q % p;
    Division(q, p);
    assert a * (256 * p) == (a * p) * 256 by { Regroup(a, p); }
    Remainder(n, 256 * p, a, b * 256 + n % 256);
  }

  lemma Remainder(n: nat, d: nat, q: nat, r: nat)
    requires d > 0 && n == q * d + r && r < d
    ensures n % d == r
  {
    var a, b := n / d, n % d;
    Division(n, d);
    if a > q {
      assert (a - q) * d == r - b by { Distribute(a, q, d); }
      Multiple(a - q, d);
    } else if a < q {
      assert (q - a) * d == b - r by { Distribute(q, a, d); }
      Multiple(q - a, d);
    }
  }

  lemma Multiple(q: int, d: nat)
    requires q >= 1
    ensures q * d >= d
  {
    assert q * d == (q - 1) * d + d;
  }

  lemma Division(n: nat, d: nat)
    requires d > 0
    ensures n == (n / d) * d + n % d && 0 <= n % d < d
  {
  }

  lemma Distribute(a: int, b: int, d: int)
    ensures (a - b) * d == a * d - b * d
  {
  }

  lemma Regroup(a: int, p: int)
    ensures a * (256 * p) == (a * p) * 256
  {
  }
}
