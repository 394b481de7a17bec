/**
 * The key under which the bomb collision manager remembers a pair of bombs
 * during one frame: the two instance IDs, smaller first, written in decimal
 * and joined by an underscore ("{min}_{max}").
 */
module PairKeys {

  /** The decimal digit character for `d`. */
  function DigitChar(d: nat): (c: char)
    requires d < 10
    ensures '0' <= c <= '9'
    ensures c as int - '0' as int == d
  {
    ('0' as int + d) as char
  }

  /** Decimal digits of a natural number, most significant first, no leading zeros. */
  function NatToDecimal(n: nat): (s: string)
    ensures |s| > 0
    ensures forall i :: 0 <= i < |s| ==> '0' <= s[i] <= '9'
    ensures (|s| == 1) == (n < 10)
  {
    if n < 10 then [DigitChar(n)] else NatToDecimal(n / 10) + [DigitChar(n % 10)]
  }

  /** How an `int` is written by string interpolation: a '-' sign, then the digits. */
  function IntToDecimal(n: int): (s: string)
    ensures |s| > 0
    ensures '_' !in s
    ensures (s[0] == '-') == (n < 0)
  {
    if n < 0 then "-" + NatToDecimal(-n) else NatToDecimal(n)
  }

  /** The pair key of two instance IDs; the smaller ID is written first. */
  function CreatePairKey(idA: int, idB: int): string
  {
    if idA < idB then IntToDecimal(idA) + "_" + IntToDecimal(idB)
    else IntToDecimal(idB) + "_" + IntToDecimal(idA)
  }

  /** `{idA, idB}` and `{idC, idD}` are the same unordered pair. */
  predicate SameUnorderedPair(idA: int, idB: int, idC: int, idD: int)
  {
    (idA == idC && idB == idD) || (idA == idD && idB == idC)
  }

  lemma {:induction false} NatToDecimalInjective(n: nat, m: nat)
    requires NatToDecimal(n) == NatToDecimal(m)
    ensures n == m
  {
    var s, t := NatToDecimal(n), NatToDecimal(m);
    if n < 10 || m < 10 {
      assert |s| == 1 && |t| == 1;
      assert n < 10 && m < 10;
      assert s[0] == DigitChar(n) && t[0] == DigitChar(m);
    } else {
      var k := |s| - 1;
      assert s[k] == DigitChar(n % 10) && t[k] == DigitChar(m % 10);
      assert s[..k] == NatToDecimal(n / 10);
      assert t[..k] == NatToDecimal(m / 10);
      NatToDecimalInjective(n / 10, m / 10);
    }
  }

  lemma {:induction false} IntToDecimalInjective(n: int, m: int)
    requires IntToDecimal(n) == IntToDecimal(m)
    ensures n == m
  {
    var s := IntToDecimal(n);
    if n < 0 {
      assert m < 0;
      assert s[1..] == NatToDecimal(-n) && s[1..] == NatToDecimal(-m);
      NatToDecimalInjective(-n, -m);
    } else {
      assert m >= 0;
      NatToDecimalInjective(n, m);
    }
  }

  /** Joining two underscore-free strings with '_' can be undone. */
  lemma {:induction false} JoinInjective(a: string, b: string, c: string, d: string)
    requires '_' !in a && '_' !in b && '_' !in c && '_' !in d
    requires a + "_" + b == c + "_" + d
    ensures a == c && b == d
  {
    var s := a + "_" + b;
    UnderscoreAt(a, b);
    UnderscoreAt(c, d);
    assert |a| == |c|;
    assert a == s[..|a|] == c;
    assert b == s[|a| + 1..] == d;
  }

  /** In `a + "_" + b` with `a` free of '_', the first '_' sits at index |a|. */
  lemma UnderscoreAt(a: string, b: string)
    requires '_' !in a
    ensures (a + "_" + b)[|a|] == '_'
    ensures forall i :: 0 <= i < |a| ==> (a + "_" + b)[i] != '_'
  {
  }

  /** Which bomb reports a collision does not change its key. */
  lemma CreatePairKeySymmetric(idA: int, idB: int)
    ensures CreatePairKey(idA, idB) == CreatePairKey(idB, idA)
  {
  }

  /**
   * Two pairs get the same key exactly when they are the same unordered pair
   * of IDs, so the key identifies a pair without loss.
   */
  lemma CreatePairKeyInjective(idA: int, idB: int, idC: int, idD: int)
    ensures CreatePairKey(idA, idB) == CreatePairKey(idC, idD)
        <==> SameUnorderedPair(idA, idB, idC, idD)
  {
    if CreatePairKey(idA, idB) == CreatePairKey(idC, idD) {
      var lo1, hi1 := if idA < idB then idA else idB, if idA < idB then idB else idA;
      var lo2, hi2 := if idC < idD then idC else idD, if idC < idD then idD else idC;
      JoinInjective(IntToDecimal(lo1), IntToDecimal(hi1), IntToDecimal(lo2), IntToDecimal(hi2));
      IntToDecimalInjective(lo1, lo2);
      IntToDecimalInjective(hi1, hi2);
    }
  }
}
