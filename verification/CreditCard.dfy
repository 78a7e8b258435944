// The check digit of a credit card number: the Luhn formula of Annex B of ISO/IEC 7812-1.
module CreditCard {

  predicate IsDigit(d: int)
  {
    0 <= d <= 9
  }

  predicate AllDigits(ds: seq<int>)
  {
    forall i | 0 <= i < |ds| :: IsDigit(ds[i])
  }

  // Twice the digit, or the sum of the two digits of that.
  function Doubled(d: int): int
  {
    if d * 2 > 9 then d * 2 / 10 + d * 2 % 10 else d * 2
  }

  // Every second digit is doubled, starting left of the last one; an even number of digits left to read
  // means that the first of them is doubled.
  function LuhnSum(ds: seq<int>): int
  {
    if ds == [] then 0
    else (if |ds| % 2 == 0 then Doubled(ds[0]) else ds[0]) + LuhnSum(ds[1..])
  }

  predicate IsLuhn(ds: seq<int>)
  {
    LuhnSum(ds) % 10 == 0
  }

  // The digits of a number written with spaces.
  function Digits(cc: string): seq<int>
  {
    if cc == "" then []
    else Digits(cc[..|cc| - 1]) + if cc[|cc| - 1] == ' ' then [] else [cc[|cc| - 1] as int - '0' as int]
  }

  // ---------- the computation ----------

  // The part of the sum that comes from the positions i and i + 2, i + 4, ..., all doubled or all not.
  function EverySecond(ds: seq<int>, i: nat, doubled: bool): int
    decreases |ds| - i
  {
    if i >= |ds| then 0
    else (if doubled then Doubled(ds[i]) else ds[i]) + EverySecond(ds, i + 2, doubled)
  }

  lemma {:induction false} SumOfSeconds(ds: seq<int>, i: nat)
    requires i <= |ds|
    ensures LuhnSum(ds[i..]) ==
      if (|ds| - i) % 2 == 0 then EverySecond(ds, i, true) + EverySecond(ds, i + 1, false)
      else EverySecond(ds, i, false) + EverySecond(ds, i + 1, true)
    decreases |ds| - i
  {
    if i == |ds| {
    } else {
      SumOfSeconds(ds, i + 1);
      assert ds[i..][1..] == ds[i + 1..];
    }
  }

  method RemoveSpaces(cc: string) returns (digits: seq<int>)
    ensures digits == Digits(cc)
  {
    digits := [];
    var k := 0;
    while k < |cc|
      invariant 0 <= k <= |cc| && digits == Digits(cc[..k])
    {
      assert cc[..k + 1][..k] == cc[..k];
      if cc[k] != ' ' {
        digits := digits + [cc[k] as int - '0' as int];
      }
      k := k + 1;
    }
    assert cc[..k] == cc;
  }

  lemma SecondStep(ds: seq<int>, i: nat, doubled: bool)
    requires i < |ds|
    ensures EverySecond(ds, i, doubled) == (if doubled then Doubled(ds[i]) else ds[i]) + EverySecond(ds, i + 2, doubled)
  {}

  lemma SecondEnd(ds: seq<int>)
    ensures forall i: nat, doubled | i >= |ds| :: EverySecond(ds, i, doubled) == 0
  {}

  // The two loops over the digits, from the right.
  method IsCreditCard(cc: string) returns (valid: bool)
    ensures valid == IsLuhn(Digits(cc))
  {
    hide Digits, LuhnSum, EverySecond;
    var digits := RemoveSpaces(cc);
    var len := |digits|;
    var doubleEvenSum := 0;
    SecondEnd(digits);
    var lpc := len - 2;
    while lpc >= 0
      invariant -2 <= lpc <= len - 2 && (len - lpc) % 2 == 0
      invariant doubleEvenSum == EverySecond(digits, lpc + 2, true)
      decreases lpc
    {
      SecondStep(digits, lpc, true);
      var dbl := digits[lpc] * 2;
      if dbl > 9 {
        dbl := dbl / 10 + dbl % 10;
      }
      doubleEvenSum := doubleEvenSum + dbl;
      lpc := lpc - 2;
    }
    ghost var doubled := doubleEvenSum;
    lpc := len - 1;
    while lpc >= 0
      invariant -2 <= lpc <= len - 1 && (len - lpc) % 2 == 1
      invariant doubleEvenSum == doubled + EverySecond(digits, lpc + 2, false)
      decreases lpc
    {
      SecondStep(digits, lpc, false);
      doubleEvenSum := doubleEvenSum + digits[lpc];
      lpc := lpc - 2;
    }
    SumOfSeconds(digits, 0);
    assert digits[0..] == digits;
    valid := doubleEvenSum % 10 == 0;
  }

  // ---------- what the check digit detects ----------

  // What position i adds to the sum.
  function Share(ds: seq<int>, i: nat, d: int): int
    requires i < |ds|
  {
    if (|ds| - i) % 2 == 0 then Doubled(d) else d
  }

  lemma {:induction false} SumWithout(ds: seq<int>, i: nat, d: int)
    requires i < |ds|
    ensures LuhnSum(ds[i := d]) == LuhnSum(ds) - Share(ds, i, ds[i]) + Share(ds, i, d)
    decreases |ds|
  {
    if i > 0 {
      SumWithout(ds[1..], i - 1, d);
      assert ds[i := d][1..] == ds[1..][i - 1 := d];
    } else {
      assert ds[i := d][1..] == ds[1..];
    }
  }

  lemma DoubledDigit(d: int)
    requires IsDigit(d)
    ensures Doubled(d) == if d < 5 then 2 * d else 2 * d - 9
  {}

  lemma AcceptedShift(sum: int, k: int)
    requires sum % 10 == 0 && -9 <= k <= 9
    ensures (sum + k) % 10 == 0 <==> k == 0
  {}

  // Changing any one digit of an accepted number makes it unacceptable.
  lemma SingleErrorDetected(ds: seq<int>, i: nat, d: int)
    requires AllDigits(ds) && IsLuhn(ds) && i < |ds| && IsDigit(d) && d != ds[i]
    ensures !IsLuhn(ds[i := d])
  {
    hide Doubled, LuhnSum;
    SumWithout(ds, i, d);
    DoubledDigit(ds[i]);
    DoubledDigit(d);
    AcceptedShift(LuhnSum(ds), Share(ds, i, d) - Share(ds, i, ds[i]));
  }

  // Swapping two neighbours in an accepted number goes unnoticed exactly when they are equal or are 0 and 9.
  lemma SwapDetected(ds: seq<int>, i: nat)
    requires AllDigits(ds) && IsLuhn(ds) && i + 1 < |ds|
    ensures
      var a, b := ds[i], ds[i + 1];
      IsLuhn(ds[i := b][i + 1 := a]) <==> a == b || (a == 0 && b == 9) || (a == 9 && b == 0)
  {
    hide Doubled, LuhnSum;
    var a, b := ds[i], ds[i + 1];
    var once := ds[i := b];
    SumWithout(ds, i, b);
    SumWithout(once, i + 1, a);
    DoubledDigit(a);
    DoubledDigit(b);
    AcceptedShift(
      LuhnSum(ds), Share(ds, i, b) - Share(ds, i, a) + Share(once, i + 1, a) - Share(once, i + 1, b));
  }

  // What the digits before the check digit add to the sum: every second one doubled, the last of them first.
  function PayloadSum(ds: seq<int>, doubled: bool): int
  {
    if ds == [] then 0
    else
      var n := |ds| - 1;
      PayloadSum(ds[..n], !doubled) + if doubled then 2 * ds[n] / 10 + 2 * ds[n] % 10 else ds[n]
  }

  // The check digit itself counts as it is.
  lemma SumFromEnd(ds: seq<int>, last: int)
    requires AllDigits(ds)
    ensures LuhnSum(ds + [last]) == PayloadSum(ds, true) + last
    decreases |ds|
  {
    hide LuhnSum, PayloadSum;
    PayloadIsSum(ds, true);
    LastSum(last);
    SumParts(ds, [last]);
  }

  lemma LastSum(d: int)
    ensures LuhnSum([d]) == d
  {
    assert [d][1..] == [];
  }

  // The sum from the left, where shifted tells whether one more digit follows.
  function SumBefore(ds: seq<int>, shifted: bool): int
  {
    if ds == [] then 0
    else (if (|ds| % 2 == 0) != shifted then Doubled(ds[0]) else ds[0]) + SumBefore(ds[1..], shifted)
  }

  lemma {:induction false} SumParts(ds: seq<int>, last: seq<int>)
    requires |last| == 1
    ensures LuhnSum(ds + last) == SumBefore(ds, true) + LuhnSum(last)
    decreases |ds|
  {
    hide Doubled;
    if ds == [] {
      assert ds + last == last;
    } else {
      SumParts(ds[1..], last);
      assert (ds + last)[1..] == ds[1..] + last;
    }
  }

  lemma {:induction false} SumBeforeMore(ds: seq<int>, d: int, shifted: bool)
    ensures SumBefore(ds + [d], shifted) == SumBefore(ds, !shifted) + if shifted then Doubled(d) else d
    decreases |ds|
  {
    hide Doubled;
    if ds == [] {
      assert ds + [d] == [d] && [d][1..] == [];
    } else {
      SumBeforeMore(ds[1..], d, shifted);
      assert (ds + [d])[1..] == ds[1..] + [d];
    }
  }

  lemma {:induction false} PayloadIsSum(ds: seq<int>, doubled: bool)
    requires AllDigits(ds)
    ensures PayloadSum(ds, doubled) == SumBefore(ds, doubled)
    decreases |ds|
  {
    hide Doubled;
    if ds == [] {
    } else {
      var n := |ds| - 1;
      PayloadIsSum(ds[..n], !doubled);
      assert ds == ds[..n] + [ds[n]];
      SumBeforeMore(ds[..n], ds[n], doubled);
      DoubledDigit(ds[n]);
    }
  }

  // A number is accepted exactly when its check digit is what the sum of the others lacks to a multiple of ten.
  lemma CheckDigit(payload: seq<int>, check: int)
    requires AllDigits(payload) && IsDigit(check)
    ensures IsLuhn(payload + [check]) <==> check == (10 - PayloadSum(payload, true) % 10) % 10
  {
    hide LuhnSum, PayloadSum;
    SumFromEnd(payload, check);
  }
}
