/**
 * The integer `new java.math.BigInteger(byte[])` builds from an octet array:
 * the octets are read as a big-endian TWO'S-COMPLEMENT number, so a first
 * octet of 0x80 or more gives a negative value. Java's `byte` is signed; an
 * octet is kept here as its unsigned value 0..255 and the sign is handled by
 * `Signed`.
 */
module BigIntegers {

  /** One octet of a Java `byte[]`, as its unsigned value. */
  type Byte = b: int | 0 <= b < 256

  /** 256 to the power n: one more than the largest n-octet unsigned value. */
  function Pow256(n: nat): (p: nat)
    ensures p >= 1
  {
    if n == 0 then 1 else 256 * Pow256(n - 1)
  }

  /** Multiplying by a non-negative factor keeps an order. */
  lemma ScaleMonotonic(a: int, b: int, p: nat)
    requires a <= b
    ensures a * p <= b * p
  {
  }

  /** The octets read as a big-endian unsigned number. */
  function Unsigned(s: seq<Byte>): (v: nat)
    ensures v < Pow256(|s|)
  {
    if |s| == 0 then 0
    else
      ScaleMonotonic(s[0], 255, Pow256(|s| - 1));
      s[0] * Pow256(|s| - 1) + Unsigned(s[1..])
  }

  /**
   * `new BigInteger(s)`: the unsigned reading, minus 256^|s| when the sign
   * bit of the first octet is set. Java throws NumberFormatException for an
   * empty array, hence the precondition (every caller in KeyCreator rejects
   * empty arrays first).
   */
  function Signed(s: seq<Byte>): (v: int)
    requires |s| > 0
    ensures v < 0 <==> s[0] >= 0x80
  {
    if s[0] < 0x80 then Unsigned(s) else Unsigned(s) - Pow256(|s|)
  }

  /**
   * Independent reading of the same rule: Horner's scheme over the octets,
   * with the first octet sign-extended (taken as a value in -128..127).
   */
  function SignExtended(s: seq<Byte>): int
    requires |s| > 0
  {
    if |s| == 1 then (if s[0] < 0x80 then s[0] else s[0] - 256)
    else SignExtended(s[..|s| - 1]) * 256 + s[|s| - 1]
  }

  /** Appending an octet shifts the unsigned value by one octet. */
  lemma {:induction false} UnsignedSnoc(s: seq<Byte>, b: Byte)
    ensures Unsigned(s + [b]) == Unsigned(s) * 256 + b
  {
    if |s| == 0 {
      assert s + [b] == [b];
      assert [b][1..] == [];
    } else {
      assert (s + [b])[1..] == s[1..] + [b];
      UnsignedSnoc(s[1..], b);
      calc {
        Unsigned(s + [b]);
        s[0] * Pow256(|s|) + Unsigned(s[1..] + [b]);
        s[0] * (256 * Pow256(|s| - 1)) + Unsigned(s[1..]) * 256 + b;
        (s[0] * Pow256(|s| - 1) + Unsigned(s[1..])) * 256 + b;
      }
    }
  }

  /** The two readings agree on every non-empty array. */
  lemma {:induction false} SignedIsSignExtended(s: seq<Byte>)
    requires |s| > 0
    ensures Signed(s) == SignExtended(s)
  {
    if |s| == 1 {
      assert s[1..] == [];
    } else {
      var init, last := s[..|s| - 1], s[|s| - 1];
      assert s == init + [last];
      UnsignedSnoc(init, last);
      SignedIsSignExtended(init);
      assert init[0] == s[0];
    }
  }

  /** Half of 256^n (n >= 1): the magnitude bound of an n-octet two's-complement value. */
  function HalfRange(n: nat): int
    requires n > 0
  {
    128 * Pow256(n - 1)
  }

  /** An n-octet two's-complement value lies in [-256^n/2, 256^n/2). */
  lemma {:induction false} SignedRange(s: seq<Byte>)
    requires |s| > 0
    ensures -HalfRange(|s|) <= Signed(s) < HalfRange(|s|)
  {
    var p := Pow256(|s| - 1);
    assert Unsigned(s) == s[0] * p + Unsigned(s[1..]);
    if s[0] < 0x80 {
      ScaleMonotonic(s[0], 127, p);
    } else {
      ScaleMonotonic(128, s[0], p);
      ScaleMonotonic(s[0], 255, p);
    }
  }

  /**
   * A leading zero octet makes the reading unsigned: this is how a positive
   * number whose top bit is set has to be passed to `new BigInteger(byte[])`.
   */
  lemma {:induction false} SignedZeroPrefix(s: seq<Byte>)
    ensures Signed([0] + s) == Unsigned(s)
  {
  }

  /** A redundant sign-extension octet 0xFF in front of a negative value changes nothing. */
  lemma {:induction false} SignedSignExtension(s: seq<Byte>)
    requires |s| > 0 && s[0] >= 0x80
    ensures Signed([0xFF] + s) == Signed(s)
  {
  }

}
