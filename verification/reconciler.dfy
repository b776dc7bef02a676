/** The reconciler: `adjustAmount` (src/core.ts) corrects the rounding drift
    between the total and the sum of the per-person amounts by changing the
    amount of one person, in place. */
module Reconciler {
  import opened Rounding
  import opened Bill

  /** `items.reduce((sum, item) => sum + item.amount, 0)`. */
  function AmountSum(s: seq<PersonItem>): (r: real)
    ensures s == [] ==> r == 0.0
    ensures |s| == 1 ==> r == s[0].amount
  {
    if s == [] then 0.0 else AmountSum(s[..|s| - 1]) + s[|s| - 1].amount
  }

  /** The index of the entry that
      `items.reduce((prev, current) => current.amount > prev.amount ? current : prev)`
      returns: the leftmost entry of largest amount, because the strict
      comparison keeps the earlier entry on a tie. */
  function MaxIndex(s: seq<PersonItem>): (k: nat)
    requires s != []
    ensures k < |s|
    ensures forall j :: 0 <= j < |s| ==> s[j].amount <= s[k].amount
    ensures forall j :: 0 <= j < k ==> s[j].amount < s[k].amount
  {
    if |s| == 1 then 0
    else
      var k := MaxIndex(s[..|s| - 1]);
      if s[|s| - 1].amount > s[k].amount then |s| - 1 else k
  }

  /** The corrected amount of the target: a fixed tenth more when the list
      falls short of the total, the (negative) drift itself when it overshoots,
      rounded to the nearest tenth again. */
  function Corrected(amount: real, adjustment: real): (r: real)
    ensures OnGrid(r)
    ensures adjustment > 0.0 ==> amount + 0.05 < r <= amount + 0.15
    ensures adjustment <= 0.0 ==> amount + adjustment - 0.05 < r <= amount + adjustment + 0.05
    ensures OnGrid(amount) && adjustment > 0.0 ==> r == amount + 0.1
  {
    if adjustment > 0.0 && OnGrid(amount) then
      assert OnGrid(0.1) by { assert (0.1 * 10.0).Floor == 1; }
      OnGridAdd(amount, 0.1);
      RoundTenthOnGrid(amount + 0.1);
      RoundTenth(amount + 0.1)
    else
      RoundTenth(amount + if adjustment > 0.0 then 0.1 else adjustment)
  }

  /** `adjustAmount` on values: the list after the call, or the exception when the
      call throws (`reduce` without a seed on an empty list). Only the
      target entry can change, and only its amount, which becomes the
      `Corrected` amount for the drift. */
  function Adjusted(totalAmount: real, s: seq<PersonItem>): (r: Result<seq<PersonItem>>)
    ensures r.Failure? <==> s == [] && totalAmount != 0.0
    ensures totalAmount == AmountSum(s) ==> r == Success(s)
    ensures r.Failure? ==> r.message == EmptyReduce
    ensures r.Success? ==> |r.value| == |s| && forall j :: 0 <= j < |s| ==> r.value[j].name == s[j].name
    ensures s != [] && totalAmount != AmountSum(s) ==>
      forall j :: 0 <= j < |s| && j != MaxIndex(s) ==> r.value[j] == s[j]
    ensures s != [] && totalAmount != AmountSum(s) ==>
      r.value[MaxIndex(s)].amount == Corrected(s[MaxIndex(s)].amount, totalAmount - AmountSum(s))
  {
    var adjustment := totalAmount - AmountSum(s);
    if adjustment == 0.0 then Success(s)
    else if s == [] then Failure(EmptyReduce)
    else
      var k := MaxIndex(s);
      Success(s[k := s[k].(amount := Corrected(s[k].amount, adjustment))])
  }

  /** A list of whole tenths stays one: the new amount is rounded to a tenth. */
  lemma {:induction false} AdjustedOnGrid(totalAmount: real, s: seq<PersonItem>)
    requires forall j :: 0 <= j < |s| ==> OnGrid(s[j].amount)
    ensures Adjusted(totalAmount, s).Success? ==>
      forall j :: 0 <= j < |Adjusted(totalAmount, s).value| ==> OnGrid(Adjusted(totalAmount, s).value[j].amount)
  {
  }

  lemma {:induction false} AmountSumUpdate(s: seq<PersonItem>, k: nat, x: PersonItem)
    requires k < |s|
    ensures AmountSum(s[k := x]) == AmountSum(s) - s[k].amount + x.amount
  {
    var t := s[k := x];
    var n := |s| - 1;
    if k < n {
      assert t[..n] == s[..n][k := x];
      AmountSumUpdate(s[..n], k, x);
    } else {
      assert t[..n] == s[..n];
    }
  }

  lemma {:induction false} AmountSumOnGrid(s: seq<PersonItem>)
    requires forall j :: 0 <= j < |s| ==> OnGrid(s[j].amount)
    ensures OnGrid(AmountSum(s))
  {
    if s == [] {
      assert (0.0 * 10.0).Floor == 0;
    } else {
      AmountSumOnGrid(s[..|s| - 1]);
      OnGridAdd(AmountSum(s[..|s| - 1]), s[|s| - 1].amount);
    }
  }

  /** When the list falls short of the total and its target is a whole number
      of tenths, the target rises by exactly 0.1 and so does the sum. The sum
      then meets the total exactly when the drift was exactly one tenth: a
      larger shortfall is not absorbed. */
  lemma {:induction false} AdjustedShortfall(totalAmount: real, s: seq<PersonItem>)
    requires s != [] && totalAmount > AmountSum(s)
    requires OnGrid(s[MaxIndex(s)].amount)
    ensures Adjusted(totalAmount, s).Success?
    ensures var k := MaxIndex(s); Adjusted(totalAmount, s).value[k].amount == s[k].amount + 0.1
    ensures AmountSum(Adjusted(totalAmount, s).value) == AmountSum(s) + 0.1
    ensures AmountSum(Adjusted(totalAmount, s).value) == totalAmount <==> totalAmount - AmountSum(s) == 0.1
  {
    var k := MaxIndex(s);
    var a := s[k].amount;
    assert OnGrid(0.1) by { assert (0.1 * 10.0).Floor == 1; }
    OnGridAdd(a, 0.1);
    RoundTenthOnGrid(a + 0.1);
    AmountSumUpdate(s, k, s[k].(amount := a + 0.1));
  }

  /** When the list overshoots the total and the total, the sum and the target
      are whole numbers of tenths, the target absorbs the whole drift and the sum
      equals the total. */
  lemma {:induction false} AdjustedOvershoot(totalAmount: real, s: seq<PersonItem>)
    requires s != [] && totalAmount < AmountSum(s)
    requires OnGrid(totalAmount) && OnGrid(AmountSum(s)) && OnGrid(s[MaxIndex(s)].amount)
    ensures Adjusted(totalAmount, s).Success?
    ensures var k := MaxIndex(s);
      Adjusted(totalAmount, s).value[k].amount == s[k].amount + (totalAmount - AmountSum(s))
    ensures AmountSum(Adjusted(totalAmount, s).value) == totalAmount
  {
    var k := MaxIndex(s);
    var a, d := s[k].amount, totalAmount - AmountSum(s);
    ShiftOnGrid(a, totalAmount, AmountSum(s));
    var x := s[k].(amount := Corrected(a, d));
    assert Adjusted(totalAmount, s) == Success(s[k := x]);
    AmountSumUpdate(s, k, x);
  }

  /** Moving a whole number of tenths by the difference of two others needs no rounding. */
  lemma {:induction false} ShiftOnGrid(a: real, x: real, y: real)
    requires OnGrid(a) && OnGrid(x) && OnGrid(y)
    ensures RoundTenth(a + (x - y)) == a + (x - y)
  {
    OnGridAdd(x, y);
    OnGridAdd(a, x - y);
    RoundTenthOnGrid(a + (x - y));
  }

  /** On the tenth grid, reconciliation reaches the total exactly whenever the
      drift is at most one tenth upward (any downward drift is absorbed). */
  lemma {:induction false} AdjustedConserves(totalAmount: real, s: seq<PersonItem>)
    requires s != [] || totalAmount == 0.0
    requires OnGrid(totalAmount) && forall j :: 0 <= j < |s| ==> OnGrid(s[j].amount)
    requires totalAmount - AmountSum(s) <= 0.1
    ensures Adjusted(totalAmount, s).Success?
    ensures AmountSum(Adjusted(totalAmount, s).value) == totalAmount
  {
    var d := totalAmount - AmountSum(s);
    if d > 0.0 {
      AmountSumOnGrid(s);
      OnGridAdd(totalAmount, AmountSum(s));
      OnGridSmallPositive(d);
      AdjustedShortfall(totalAmount, s);
    } else if d < 0.0 {
      AmountSumOnGrid(s);
      AdjustedOvershoot(totalAmount, s);
    }
  }

  /** `items.reduce((sum, item) => sum + item.amount, 0)`, as a loop. */
  method SumAmounts(a: array<PersonItem>) returns (total: real)
    ensures total == AmountSum(a[..])
  {
    total := 0.0;
    for i := 0 to a.Length
      invariant total == AmountSum(a[..i])
    {
      assert a[..i + 1][..i] == a[..i];
      total := total + a[i].amount;
    }
    assert a[..a.Length] == a[..];
  }

  /** The seedless `reduce` that keeps the larger amount, as a loop. It
      returns the index of the entry that `reduce` returns. */
  method FindMax(a: array<PersonItem>) returns (max: nat)
    requires a.Length > 0
    ensures max == MaxIndex(a[..])
  {
    max := 0;
    for i := 1 to a.Length
      invariant max == MaxIndex(a[..i])
    {
      assert a[..i + 1][..i] == a[..i];
      if a[i].amount > a[max].amount {
        max := i;
      }
    }
    assert a[..a.Length] == a[..];
  }

  /** `adjustAmount`: sums the amounts, and unless they already meet the
      total, finds the leftmost largest entry and corrects its amount in
      place. On an empty list with a nonzero total it throws, as `reduce`
      without a seed does, and changes nothing. */
  method AdjustAmount(totalAmount: real, a: array<PersonItem>) returns (outcome: Outcome)
    modifies a
    ensures outcome.Fail? <==> Adjusted(totalAmount, old(a[..])).Failure?
    ensures outcome.Fail? ==> outcome.message == EmptyReduce && a[..] == old(a[..])
    ensures outcome.Pass? ==> a[..] == Adjusted(totalAmount, old(a[..])).value
  {
    ghost var s := a[..];
    var currentTotal := SumAmounts(a);
    var adjustment := totalAmount - currentTotal;
    if adjustment == 0.0 {
      return Pass;
    }
    if a.Length == 0 {
      return Fail(EmptyReduce);
    }
    var max := FindMax(a);
    if adjustment > 0.0 {
      a[max] := a[max].(amount := a[max].amount + 0.1);
    } else {
      a[max] := a[max].(amount := a[max].amount + adjustment);
    }
    a[max] := a[max].(amount := RoundTenth(a[max].amount));
    assert a[..] == s[max := s[max].(amount := Corrected(s[max].amount, adjustment))];
    return Pass;
  }
}
