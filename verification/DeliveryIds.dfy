// The identities of the delivery ledger: the one a generated body is named by,
// the counted one a hold beside no generation takes, and the order number a
// restart reads back out of an identity.
module DeliveryIds {
  import opened Core

  const DELIVERY_PREFIX := "delivery-"
  const FRESH_PREFIX := "delivery-fresh-"

  /** The obligation of one generated body, named by the fact that carries it. */
  function FreshId(fact: string): string { FRESH_PREFIX + fact }

  predicate IsFresh(id: string) { FRESH_PREFIX <= id }

  function Digits(n: nat): (s: string)
    ensures s != ""
    ensures forall i :: 0 <= i < |s| ==> '0' <= s[i] <= '9'
  {
    if n < 10 then [('0' as int + n) as char] else Digits(n / 10) + [('0' as int + n % 10) as char]
  }

  function PadZero(s: string, width: nat): (r: string)
    ensures |s| <= |r|
    decreases width - |s|
  {
    if |s| >= width then s else PadZero("0" + s, width)
  }

  /** The identity of the n-th hold no generation named. */
  function MintId(n: nat): string { DELIVERY_PREFIX + PadZero(Digits(n), 6) }

  function DecimalValue(s: string): nat
    requires forall i :: 0 <= i < |s| ==> '0' <= s[i] <= '9'
  {
    if s == "" then 0 else DecimalValue(s[..|s| - 1]) * 10 + (s[|s| - 1] as int - '0' as int)
  }

  function ParseDecimal(s: string): Option<nat> {
    if s != "" && forall i :: 0 <= i < |s| ==> '0' <= s[i] <= '9' then Some(DecimalValue(s)) else None
  }

  /** The order number inside one identity, zero beside an identity carrying none. */
  function DeliveryHeldSeq(id: string): nat {
    var rest := if DELIVERY_PREFIX <= id then id[|DELIVERY_PREFIX|..] else id;
    match ParseDecimal(rest)
    case Some(n) => n
    case None => 0
  }

  lemma {:induction false} DigitsValue(n: nat)
    ensures DecimalValue(Digits(n)) == n
  {
    if n < 10 {
      assert Digits(n)[..0] == "";
    } else {
      DigitsValue(n / 10);
      assert Digits(n)[..|Digits(n)| - 1] == Digits(n / 10);
    }
  }

  lemma {:induction false} LeadingZero(s: string)
    requires forall i :: 0 <= i < |s| ==> '0' <= s[i] <= '9'
    ensures DecimalValue("0" + s) == DecimalValue(s)
  {
    if s == "" {
      assert ("0" + s)[..0] == "";
    } else {
      LeadingZero(s[..|s| - 1]);
      assert ("0" + s)[..|s|] == "0" + s[..|s| - 1];
    }
  }

  lemma {:induction false} PadValue(s: string, width: nat)
    requires s != "" && forall i :: 0 <= i < |s| ==> '0' <= s[i] <= '9'
    ensures ParseDecimal(PadZero(s, width)) == Some(DecimalValue(s))
    decreases width - |s|
  {
    if |s| < width {
      LeadingZero(s);
      PadValue("0" + s, width);
    }
  }

  /** A restart reads the counter of a minted identity back exactly, so no two
      counters share an identity. */
  lemma MintedSeq(n: nat)
    ensures DeliveryHeldSeq(MintId(n)) == n
    ensures !IsFresh(MintId(n))
  {
    DigitsValue(n);
    PadValue(Digits(n), 6);
    var digits := PadZero(Digits(n), 6);
    assert MintId(n)[|DELIVERY_PREFIX|..] == digits;
    assert ParseDecimal(digits).Some?;
    assert MintId(n)[|DELIVERY_PREFIX|] == digits[0];
    assert FRESH_PREFIX[|DELIVERY_PREFIX|] == 'f';
  }

  /** The identity of a generated body carries no order number. */
  lemma FreshSeq(id: string)
    requires IsFresh(id)
    ensures DeliveryHeldSeq(id) == 0
  {
    assert DELIVERY_PREFIX <= id;
    assert id[|DELIVERY_PREFIX|..][0] == FRESH_PREFIX[|DELIVERY_PREFIX|] == 'f';
  }
}
