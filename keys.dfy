/** Cache keys: a namespace prefix followed by the identifier, with epoch
    milliseconds written in decimal as a template string renders them. */
module CacheKeys {

  function DigitChar(d: nat): (c: char)
    requires d < 10
    ensures '0' <= c <= '9'
    ensures c as int == 48 + d
  {
    (48 + d) as char
  }

  /** Decimal digits of a natural number, most significant first. */
  function NatToDecimal(n: nat): (s: string)
    ensures 1 <= |s|
    ensures forall k :: 0 <= k < |s| ==> '0' <= s[k] <= '9'
    decreases n
  {
    if n < 10 then [DigitChar(n)] else NatToDecimal(n / 10) + [DigitChar(n % 10)]
  }

  /** An integer in decimal, with a leading '-' when negative. */
  function IntToDecimal(i: int): (s: string)
    ensures 1 <= |s|
    ensures (s[0] == '-') == (i < 0)
  {
    if i < 0 then "-" + NatToDecimal(-i) else NatToDecimal(i)
  }

  lemma {:induction false} NatToDecimalInjective(a: nat, b: nat)
    requires NatToDecimal(a) == NatToDecimal(b)
    ensures a == b
    decreases a
  {
    var sa, sb := NatToDecimal(a), NatToDecimal(b);
    if a < 10 && b < 10 {
      assert DigitChar(a) == sa[0] == sb[0] == DigitChar(b);
    } else if 10 <= a && 10 <= b {
      assert DigitChar(a % 10) == sa[|sa| - 1] == sb[|sb| - 1] == DigitChar(b % 10);
      assert NatToDecimal(a / 10) == sa[..|sa| - 1] == sb[..|sb| - 1] == NatToDecimal(b / 10);
      NatToDecimalInjective(a / 10, b / 10);
    }
  }

  lemma IntToDecimalInjective(a: int, b: int)
    requires IntToDecimal(a) == IntToDecimal(b)
    ensures a == b
  {
    var sa, sb := IntToDecimal(a), IntToDecimal(b);
    if a < 0 && b < 0 {
      assert NatToDecimal(-a) == sa[1..] == sb[1..] == NatToDecimal(-b);
      NatToDecimalInjective(-a, -b);
    } else if a >= 0 && b >= 0 {
      NatToDecimalInjective(a, b);
    }
  }

  // The four key shapes. The characters named in each contract are the ones
  // that tell the prefixes apart: "block:" and "blocksByDate:" first differ
  // at index 5.

  function BlockKey(hash: string): (k: string)
    ensures 6 <= |k| && k[0] == 'b' && k[5] == ':'
  {
    "block:" + hash
  }

  function AddressKey(address: string): (k: string)
    ensures 8 <= |k| && k[0] == 'a'
  {
    "address:" + address
  }

  function DateKey(millis: int): (k: string)
    ensures 13 <= |k| && k[0] == 'b' && k[5] == 's'
  {
    "blocksByDate:" + IntToDecimal(millis)
  }

  function TotalKey(millis: int): (k: string)
    ensures 23 <= |k| && k[0] == 't'
  {
    "totalEnergyConsumption:" + IntToDecimal(millis)
  }

  /** Prefixing keeps the namespaces apart: no key of one shape is a key of another. */
  lemma NamespacesDisjoint(hash: string, address: string, m1: int, m2: int)
    ensures BlockKey(hash) != AddressKey(address) && BlockKey(hash) != DateKey(m1)
    ensures BlockKey(hash) != TotalKey(m1) && AddressKey(address) != DateKey(m1)
    ensures AddressKey(address) != TotalKey(m1) && DateKey(m1) != TotalKey(m2)
  {
  }

  lemma BlockKeyInjective(a: string, b: string)
    requires BlockKey(a) == BlockKey(b)
    ensures a == b
  {
    assert a == BlockKey(a)[6..] == BlockKey(b)[6..] == b;
  }

  lemma AddressKeyInjective(a: string, b: string)
    requires AddressKey(a) == AddressKey(b)
    ensures a == b
  {
    assert a == AddressKey(a)[8..] == AddressKey(b)[8..] == b;
  }

  lemma DateKeyInjective(a: int, b: int)
    requires DateKey(a) == DateKey(b)
    ensures a == b
  {
    assert IntToDecimal(a) == DateKey(a)[13..] == DateKey(b)[13..] == IntToDecimal(b);
    IntToDecimalInjective(a, b);
  }

  lemma TotalKeyInjective(a: int, b: int)
    requires TotalKey(a) == TotalKey(b)
    ensures a == b
  {
    assert IntToDecimal(a) == TotalKey(a)[23..] == TotalKey(b)[23..] == IntToDecimal(b);
    IntToDecimalInjective(a, b);
  }
}
