/** Four-byte big-endian lengths, as used by the bundle and frame formats. */
module Framing {

  /** A character stands for the byte of its number. */
  type Octets = seq<char>

  function Octet(n: nat): char
    requires n < 256
  {
    n as char
  }

  /** The value of a four-byte unsigned big-endian integer. */
  function Length4(s: Octets): nat
    requires |s| == 4
  {
    ((s[0] as nat * 256 + s[1] as nat) * 256 + s[2] as nat) * 256 + s[3] as nat
  }

  /** The four-byte form of a length; anything that does not fit is not packed. */
  function Pack4(n: nat): (s: Octets)
    requires n < 0x1_0000_0000
    ensures |s| == 4 && Length4(s) == n
  {
    var q1, q2, q3 := n / 256, n / 256 / 256, n / 256 / 256 / 256;
    assert n == q1 * 256 + n % 256 && q1 == q2 * 256 + q1 % 256 && q2 == q3 * 256 + q2 % 256;
    [Octet(q3), Octet(q2 % 256), Octet(q1 % 256), Octet(n % 256)]
  }

  predicate IsBytes(s: Octets) {
    forall c :: c in s ==> c as nat < 256
  }

  lemma SliceIsBytes(s: Octets, a: nat, b: nat)
    requires a <= b <= |s| && IsBytes(s)
    ensures IsBytes(s[a..b])
  {
    assert forall c :: c in s[a..b] ==> c in s;
  }

  lemma DigitOf(q: nat, r: nat)
    requires r < 256
    ensures (q * 256 + r) / 256 == q && (q * 256 + r) % 256 == r
  {
  }

  /** There is only one four-byte form of a value. */
  lemma PackUnique(s: Octets)
    requires |s| == 4 && IsBytes(s)
    ensures Length4(s) < 0x1_0000_0000 && Pack4(Length4(s)) == s
  {
    assert s[0] in s && s[1] in s && s[2] in s && s[3] in s;
    var high := s[0] as nat * 256 + s[1] as nat;
    var upper := high * 256 + s[2] as nat;
    DigitOf(s[0] as nat, s[1] as nat);
    DigitOf(high, s[2] as nat);
    DigitOf(upper, s[3] as nat);
    assert Length4(s) == upper * 256 + s[3] as nat;
  }

  lemma TakeDrop(a: Octets, b: Octets, c: Octets)
    ensures (a + b + c)[..|a|] == a
    ensures (a + b + c)[|a|..|a| + |b|] == b
    ensures (a + b + c)[|a| + |b|..] == c
  {
  }
}
