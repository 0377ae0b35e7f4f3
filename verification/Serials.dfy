/** Message serial numbers: an unsigned counter that wraps and skips zero
    (comm_ClientSession.cpp, get_next_message_id). `modulus` is the number of values of the
    unsigned type, so the usable serials are 1 .. modulus - 1. */
module Serials {

  /** The counter step as the code takes it: increment, wrap, and increment again past zero. */
  function NextSerial(modulus: nat, last: nat): (next: nat)
    requires 2 <= modulus && last < modulus
    ensures 0 < next < modulus
  {
    var bumped := (last + 1) % modulus;
    if bumped == 0 then 1 else bumped
  }

  /** The closed form: the serial carried by the `count`-th message ever numbered; 0 when
      nothing has been numbered yet. */
  function SerialOf(modulus: nat, count: nat): nat
    requires 2 <= modulus
  {
    if count == 0 then 0 else (count - 1) % (modulus - 1) + 1
  }

  lemma SerialRange(modulus: nat, count: nat)
    requires 2 <= modulus
    ensures SerialOf(modulus, count) < modulus
    ensures SerialOf(modulus, count) == 0 <==> count == 0
  {
  }

  /** One more than n, reduced by p, is either one more or a wrap to zero. */
  lemma ModSucc(n: nat, p: nat)
    requires 1 <= p
    ensures (n + 1) % p == if n % p == p - 1 then 0 else n % p + 1
  {
    var q, r := n / p, n % p;
    assert n + 1 == q * p + (r + 1);
    if r == p - 1 {
      assert n + 1 == (q + 1) * p + 0 by { assert (q + 1) * p == q * p + p; }
      DivModUnique(n + 1, p, q + 1, 0);
    } else {
      DivModUnique(n + 1, p, q, r + 1);
    }
  }

  lemma DivModUnique(n: nat, p: nat, q: nat, r: nat)
    requires 1 <= p && r < p && n == q * p + r
    ensures n / p == q && n % p == r
  {
    assert n == (n / p) * p + n % p;
    MultiplesAreApart(q, n / p, p);
    MultiplesAreApart(n / p, q, p);
  }

  lemma {:induction false} MultiplesAreApart(a: nat, b: nat, p: nat)
    ensures a < b ==> a * p + p <= b * p
  {
    if a < b {
      MultiplesAreApart(a, b - 1, p);
      assert b * p == (b - 1) * p + p;
      assert a == b - 1 || a < b - 1;
    }
  }

  /** The counter wraps past zero. */
  lemma NextOf(modulus: nat, last: nat)
    requires 2 <= modulus && last < modulus
    ensures NextSerial(modulus, last) == if last + 1 < modulus then last + 1 else 1
  {
    if last + 1 < modulus {
      DivModUnique(last + 1, modulus, 0, last + 1);
    } else {
      DivModUnique(last + 1, modulus, 1, 0);
    }
  }

  /** So does the closed form. */
  lemma SerialAfter(modulus: nat, count: nat)
    requires 2 <= modulus
    ensures var serial := SerialOf(modulus, count);
      serial < modulus && SerialOf(modulus, count + 1) == if serial + 1 < modulus then serial + 1 else 1
  {
    if count == 0 {
      DivModUnique(0, modulus - 1, 0, 0);
    } else {
      ModSucc(count - 1, modulus - 1);
    }
  }

  /** Stepping the counter yields exactly the closed form: the serials in use are consecutive
      under the wrapping, zero-skipping successor. */
  lemma NextIsConsecutive(modulus: nat, count: nat)
    requires 2 <= modulus
    ensures SerialOf(modulus, count) < modulus
    ensures NextSerial(modulus, SerialOf(modulus, count)) == SerialOf(modulus, count + 1)
  {
    hide SerialOf, NextSerial;
    SerialAfter(modulus, count);
    NextOf(modulus, SerialOf(modulus, count));
  }

  /** Moving on by less than p reduces to another remainder. */
  lemma NearbyRemaindersDiffer(n: nat, d: nat, p: nat)
    requires 0 < d < p
    ensures (n + d) % p != n % p
  {
    var q, r := n / p, n % p;
    assert n == q * p + r;
    if r + d < p {
      DivModUnique(n + d, p, q, r + d);
    } else {
      assert (q + 1) * p == q * p + p;
      DivModUnique(n + d, p, q + 1, r + d - p);
    }
  }

  /** Two messages fewer than modulus - 1 apart never share a serial, so inside a window smaller
      than that an acknowledged serial names one message. */
  lemma NearbySerialsDiffer(modulus: nat, j: nat, k: nat)
    requires 2 <= modulus && j < k < j + modulus - 1
    ensures SerialOf(modulus, j) != SerialOf(modulus, k)
  {
    SerialRange(modulus, j);
    SerialRange(modulus, k);
    if j != 0 { NearbyRemaindersDiffer(j - 1, k - j, modulus - 1); }
  }

  /** The distance is tight: exactly modulus - 1 messages later the serial repeats. */
  lemma SerialsRepeat(modulus: nat, k: nat)
    requires 2 <= modulus && 0 < k
    ensures SerialOf(modulus, k) == SerialOf(modulus, k + modulus - 1)
  {
    var p := modulus - 1;
    var q, r := (k - 1) / p, (k - 1) % p;
    assert k - 1 + p == (q + 1) * p + r by { assert (q + 1) * p == q * p + p; }
    DivModUnique(k - 1 + p, p, q + 1, r);
  }
}
