/**
 The payment status string (`paymentStatus` in src/components/VendingMachine.tsx)
 and the message `cashOrCardPayment` shows for it. The cash path writes the
 change as `${balance - sum}원 회수하세요`; this module spells that template out
 (decimal digits, then a fixed suffix) and gives its inverse.
 */
module Status {
  import opened Wrappers

  const Success := "success"
  const Fail := "fail"

  /** The word that marks a change notice ("collect"). */
  const Collect := "회수"
  /** What follows the amount in a change notice: "won, please collect". */
  const ChangeSuffix := "원 회수하세요"

  const SuccessMessage := "결제 성공"
  const FailMessage := "결제 실패"
  const InProgressMessage := "결제 진행 중"

  predicate IsDigit(ch: char) {
    '0' <= ch <= '9'
  }

  function Digit(d: nat): (ch: char)
    requires d < 10
    ensures IsDigit(ch)
  {
    ('0' as int + d) as char
  }

  function DigitValue(ch: char): nat
    requires IsDigit(ch)
  {
    ch as int - '0' as int
  }

  /** Decimal digits without superfluous leading zeros, as JavaScript writes
      a non-negative integer. */
  predicate IsCanonicalDecimal(ds: string) {
    && |ds| >= 1
    && (forall i :: 0 <= i < |ds| ==> IsDigit(ds[i]))
    && (ds[0] == '0' ==> |ds| == 1)
  }

  /** Value of a string of decimal digits. */
  function DecimalValue(ds: string): nat
    requires forall i :: 0 <= i < |ds| ==> IsDigit(ds[i])
  {
    if |ds| == 0 then 0
    else 10 * DecimalValue(ds[..|ds| - 1]) + DigitValue(ds[|ds| - 1])
  }

  /** The decimal rendering of a non-negative integer in a template string. */
  function NatToDecimal(n: nat): (ds: string)
    ensures IsCanonicalDecimal(ds)
    ensures DecimalValue(ds) == n
  {
    if n < 10 then [Digit(n)]
    else
      var prefix := NatToDecimal(n / 10);
      var ds := prefix + [Digit(n % 10)];
      assert ds[..|ds| - 1] == prefix;
      assert prefix[0] != '0';
      ds
  }

  /** A canonical digit string with a non-zero leading digit has a positive value. */
  lemma {:induction false} LeadingDigitPositive(ds: string)
    requires IsCanonicalDecimal(ds)
    requires ds[0] != '0'
    ensures DecimalValue(ds) > 0
  {
    if |ds| > 1 {
      var prefix := ds[..|ds| - 1];
      assert IsCanonicalDecimal(prefix);
      LeadingDigitPositive(prefix);
    }
  }

  /** Every canonical digit string is the rendering of its value. */
  lemma {:induction false} CanonicalDecimalRoundTrip(ds: string)
    requires IsCanonicalDecimal(ds)
    ensures NatToDecimal(DecimalValue(ds)) == ds
  {
    if |ds| > 1 {
      var prefix := ds[..|ds| - 1];
      var last := DigitValue(ds[|ds| - 1]);
      assert IsCanonicalDecimal(prefix);
      LeadingDigitPositive(prefix);
      CanonicalDecimalRoundTrip(prefix);
      var n := DecimalValue(ds);
      assert n == 10 * DecimalValue(prefix) + last;
      assert n / 10 == DecimalValue(prefix) && n % 10 == last;
      assert Digit(last) == ds[|ds| - 1];
      assert ds == prefix + [ds[|ds| - 1]];
    }
  }

  /** The status the cash path writes when `change` won are due back. */
  function ChangeStatus(change: nat): string {
    NatToDecimal(change) + ChangeSuffix
  }

  /** Reads the amount back out of a change notice; `None` for any other status. */
  function ParseChange(status: string): Option<nat> {
    if |status| >= |ChangeSuffix|
      && status[|status| - |ChangeSuffix|..] == ChangeSuffix
      && IsCanonicalDecimal(status[..|status| - |ChangeSuffix|])
    then Some(DecimalValue(status[..|status| - |ChangeSuffix|]))
    else None
  }

  /** A status is a change notice for `change` exactly when it reads back as
      `change`: the written amount is recoverable and nothing else reads as one. */
  lemma ChangeStatusRoundTrip(status: string, change: nat)
    ensures ParseChange(status) == Some(change) <==> status == ChangeStatus(change)
  {
    var cs := ChangeStatus(change);
    var ds := NatToDecimal(change);
    assert cs[|cs| - |ChangeSuffix|..] == ChangeSuffix;
    assert cs[..|cs| - |ChangeSuffix|] == ds;
    if ParseChange(status) == Some(change) {
      var prefix := status[..|status| - |ChangeSuffix|];
      CanonicalDecimalRoundTrip(prefix);
      assert status == prefix + ChangeSuffix;
    }
  }

  /** `String.prototype.includes`: `pat` occurs somewhere in `s`. */
  function Contains(s: string, pat: string): bool
    decreases |s|
  {
    if |s| < |pat| then false
    else if s[..|pat|] == pat then true
    else Contains(s[1..], pat)
  }

  /** `pat` occurs in `s` starting at position `i`. */
  predicate InfixAt(s: string, pat: string, i: nat) {
    i + |pat| <= |s| && s[i..i + |pat|] == pat
  }

  /** When `Contains` answers true, it has found an occurrence: the position
      returned is where `pat` starts in `s`. */
  lemma {:induction false} ContainsFindsInfix(s: string, pat: string) returns (i: nat)
    requires Contains(s, pat)
    ensures InfixAt(s, pat, i)
    decreases |s|
  {
    if s[..|pat|] == pat {
      i := 0;
    } else {
      var j := ContainsFindsInfix(s[1..], pat);
      assert s[1..][j..j + |pat|] == s[j + 1..j + 1 + |pat|];
      i := j + 1;
    }
  }

  /** An occurrence anywhere makes `Contains` true. */
  lemma {:induction false} ContainsInfix(p: string, pat: string, q: string)
    ensures Contains(p + pat + q, pat)
  {
    var s := p + pat + q;
    if |p| == 0 {
      assert s[..|pat|] == pat;
    } else if s[..|pat|] != pat {
      assert s[1..] == p[1..] + pat + q;
      ContainsInfix(p[1..], pat, q);
    }
  }

  /** The `switch` of `cashOrCardPayment`: the two outcome statuses have fixed
      messages, a status mentioning collection is shown as it is, and anything
      else reads "payment in progress". */
  function Message(status: string): (m: string)
    ensures status == Success ==> m == SuccessMessage
    ensures status == Fail ==> m == FailMessage
    ensures status != Success && status != Fail && Contains(status, Collect) ==> m == status
    ensures status != Success && status != Fail && !Contains(status, Collect) ==> m == InProgressMessage
  {
    if status == Success then SuccessMessage
    else if status == Fail then FailMessage
    else if Contains(status, Collect) then status
    else InProgressMessage
  }

  /** Every change notice is displayed verbatim. */
  lemma ChangeNoticeShown(change: nat)
    ensures Message(ChangeStatus(change)) == ChangeStatus(change)
    ensures Message(ChangeStatus(change)) != Message("")
  {
    var cs := ChangeStatus(change);
    ContainsInfix(NatToDecimal(change) + "원 ", Collect, "하세요");
    assert cs == NatToDecimal(change) + "원 " + Collect + "하세요";
    assert cs[|cs| - 1] == '요';
    assert !Contains("", Collect);
  }
}
