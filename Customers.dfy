/**
 * Customer codes (CustomerController::generateCustomerCode): "CUST" followed by a
 * sequence number zero-padded to at least six digits. The number is read back from
 * the code of the most recently created customer, which the database lookup
 * supplies here as `lastCode` (None when there is no customer yet).
 */
module Customers {
  import opened Results
  import opened PhpStrings

  const Prefix: string := "CUST"
  const NumberWidth: nat := 6

  /** The code for sequence number `n`: `'CUST' . str_pad($n, 6, '0', STR_PAD_LEFT)`. */
  function CodeFor(n: int): (code: string)
    ensures |code| >= |Prefix| + NumberWidth && code[..|Prefix|] == Prefix
    ensures n >= 0 ==> AllDigits(code[|Prefix|..])
  {
    Prefix + StrPadLeft(IntToString(n), NumberWidth, '0')
  }

  /** The sequence number of the next customer: `intval(substr($last->code, 4)) + 1`, or 1. */
  function NextNumber(lastCode: Option<string>): (n: int)
    ensures lastCode.None? ==> n == 1
    ensures lastCode.Some? && AllDigits(Substr(lastCode.value, |Prefix|)) ==>
      n == DigitsValue(Substr(lastCode.value, |Prefix|)) + 1
    ensures lastCode.Some? && |lastCode.value| <= |Prefix| ==> n == 1
  {
    match lastCode
    case None => 1
    case Some(code) => IntVal(Substr(code, |Prefix|)) + 1
  }

  function GenerateCustomerCode(lastCode: Option<string>): (code: string)
    ensures |code| >= |Prefix| + NumberWidth && code[..|Prefix|] == Prefix
    ensures lastCode == None ==> code == "CUST000001"
  {
    var n := NextNumber(lastCode);
    assert lastCode == None ==> NatToString(n) == "1";
    CodeFor(n)
  }

  /** The number embedded in a code: what the generator reads back with substr and intval. */
  function NumberOf(code: string): int {
    IntVal(Substr(code, |Prefix|))
  }

  /** Round trip: reading the number back out of the code for `n` gives `n`. */
  lemma NumberOfCodeFor(n: nat)
    ensures NumberOf(CodeFor(n)) == n
  {
    var padded := StrPadLeft(IntToString(n), NumberWidth, '0');
    assert Substr(Prefix + padded, |Prefix|) == padded;
    PaddedNatValue(n, NumberWidth);
  }

  /** After the customer with code number `n`, the generator hands out number `n + 1`. */
  lemma NextAfterCodeFor(n: nat)
    ensures NextNumber(Some(CodeFor(n))) == n + 1
    ensures GenerateCustomerCode(Some(CodeFor(n))) == CodeFor(n + 1)
  {
    NumberOfCodeFor(n);
  }

  /** Padding never truncates, so distinct numbers give distinct codes. */
  lemma CodeForInjective(n: nat, m: nat)
    requires n != m
    ensures CodeFor(n) != CodeFor(m)
  {
    NumberOfCodeFor(n);
    NumberOfCodeFor(m);
  }
}
