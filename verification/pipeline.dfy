/** The pipeline: `splitBill` (src/core.ts) computes the subtotal, the tip,
    the total and the per-person list, then reconciles the list with the
    total in place. */
module Pipeline {
  import opened Rounding
  import opened Bill
  import opened Allocator
  import opened Reconciler

  /** `splitBill` on values: the output record, or the exception that
      `adjustAmount` throws when there is nobody to charge a nonzero total to.
      On success the total is the subtotal plus the tip, the list holds
      every person of the bill once, in order of first appearance, and the
      tip and every amount are whole numbers of tenths. Each field is the
      one the source assembles: the formatted date, the location, the
      subtotal, its tip and the reconciled per-person list. */
  function Split(input: BillInput, formatDate: string -> string): (r: Result<BillOutput>)
    ensures r.Failure? <==>
      Persons(input.items) == [] &&
      SubTotal(input.items) + CalculateTip(SubTotal(input.items), input.tipPercentage) != 0.0
    ensures r.Success? ==>
      r.value.totalAmount == r.value.subTotal + r.value.tip &&
      |r.value.items| == |Persons(input.items)| &&
      forall i :: 0 <= i < |r.value.items| ==> r.value.items[i].name == Persons(input.items)[i]
    ensures r.Success? ==>
      OnGrid(r.value.tip) && forall i :: 0 <= i < |r.value.items| ==> OnGrid(r.value.items[i].amount)
    ensures r.Success? ==>
      r.value.date == formatDate(input.date) && r.value.location == input.location &&
      r.value.subTotal == SubTotal(input.items) &&
      r.value.tip == CalculateTip(r.value.subTotal, input.tipPercentage) &&
      r.value.items == Adjusted(r.value.totalAmount, Items(input.items, input.tipPercentage)).value
  {
    var subTotal := SubTotal(input.items);
    var tip := CalculateTip(subTotal, input.tipPercentage);
    var totalAmount := subTotal + tip;
    var allotted := Items(input.items, input.tipPercentage);
    AdjustedOnGrid(totalAmount, allotted);
    match Adjusted(totalAmount, allotted)
    case Failure(message) => Failure(message)
    case Success(items) =>
      Success(BillOutput(formatDate(input.date), input.location, subTotal, tip, totalAmount, items))
  }

  /** `splitBill`. The date formatter is a parameter: it is not part of this model. */
  method SplitBill(input: BillInput, formatDate: string -> string) returns (r: Result<BillOutput>)
    ensures r == Split(input, formatDate)
  {
    var date := formatDate(input.date);
    var location := input.location;
    var subTotal := SubTotal(input.items);
    var tip := CalculateTip(subTotal, input.tipPercentage);
    var totalAmount := subTotal + tip;
    var items := CalculateItems(input.items, input.tipPercentage);
    var list := new PersonItem[|items|](i requires 0 <= i < |items| => items[i]);
    assert list[..] == items;
    var outcome := AdjustAmount(totalAmount, list);
    if outcome.Fail? {
      return Failure(outcome.message);
    }
    return Success(BillOutput(date, location, subTotal, tip, totalAmount, list[..]));
  }

  /** Rounding each of `names` to the nearest tenth moves their sum by less
      than half a tenth per name downward and at most half a tenth per name
      upward. */
  lemma {:induction false} AllotSum(items: seq<BillItem>, tipPercentage: real, names: seq<string>, persons: nat)
    requires persons > 0 && names != []
    ensures var raw := RawSum(items, tipPercentage, names, persons);
      var sum := AmountSum(Allot(items, tipPercentage, names, persons));
      raw - |names| as real * 0.05 < sum <= raw + |names| as real * 0.05
  {
    var init := names[..|names| - 1];
    var s := Allot(items, tipPercentage, names, persons);
    assert s[..|s| - 1] == Allot(items, tipPercentage, init, persons);
    if init != [] {
      AllotSum(items, tipPercentage, init, persons);
    }
  }

  /** The rounding drift that reaches the reconciler is less than half a
      tenth per person plus half a tenth for the tip.

      The lemmas that follow it (`TipWindow`, `DriftOfParts`, `RawOfParts`,
      `SumOfParts`, `ItemsSum`) prove nothing new: each restates
      `CalculateTip`'s window, `AllocationConserves` or `AllotSum` over named
      values, so that every proof obligation stays small. */
  lemma {:induction false} DriftBound(items: seq<BillItem>, tipPercentage: real)
    requires Persons(items) != []
    ensures var n := |Persons(items)|;
      var subTotal := SubTotal(items);
      var drift := subTotal + CalculateTip(subTotal, tipPercentage) - AmountSum(Items(items, tipPercentage));
      -(n + 1) as real * 0.05 < drift < (n + 1) as real * 0.05
  {
    var subTotal := SubTotal(items);
    TipWindow(subTotal, tipPercentage);
    DriftOfParts(items, tipPercentage, subTotal, CalculateTip(subTotal, tipPercentage),
      AmountSum(Items(items, tipPercentage)), RawSum(items, tipPercentage, Persons(items), |Persons(items)|),
      |Persons(items)|);
  }

  /** The window of CalculateTip, as a fact about one call. */
  lemma {:induction false} TipWindow(subTotal: real, tipPercentage: real)
    ensures var exact := subTotal * tipPercentage / 100.0;
      exact - 0.05 < CalculateTip(subTotal, tipPercentage) <= exact + 0.05
  {
  }

  /** DriftBound over the parts of the drift, each named by a parameter. */
  lemma {:induction false} DriftOfParts(items: seq<BillItem>, tipPercentage: real, subTotal: real, tip: real, sum: real, raw: real, n: nat)
    requires Persons(items) != [] && n == |Persons(items)|
    requires subTotal == SubTotal(items)
    requires subTotal * tipPercentage / 100.0 - 0.05 < tip <= subTotal * tipPercentage / 100.0 + 0.05
    requires sum == AmountSum(Items(items, tipPercentage))
    requires raw == RawSum(items, tipPercentage, Persons(items), n)
    ensures -(n + 1) as real * 0.05 < subTotal + tip - sum < (n + 1) as real * 0.05
  {
    RawOfParts(items, tipPercentage, subTotal, raw);
    SumOfParts(items, tipPercentage, raw, sum, n);
    DriftArith(raw, sum, subTotal, subTotal * tipPercentage / 100.0, tip, n);
  }

  /** AllocationConserves, stated over named parts. */
  lemma {:induction false} RawOfParts(items: seq<BillItem>, tipPercentage: real, subTotal: real, raw: real)
    requires Persons(items) != []
    requires subTotal == SubTotal(items) && raw == RawSum(items, tipPercentage, Persons(items), |Persons(items)|)
    ensures raw == subTotal + subTotal * tipPercentage / 100.0
  {
    AllocationConserves(items, tipPercentage);
  }

  /** ItemsSum, stated over named parts. */
  lemma {:induction false} SumOfParts(items: seq<BillItem>, tipPercentage: real, raw: real, sum: real, n: nat)
    requires Persons(items) != [] && n == |Persons(items)|
    requires raw == RawSum(items, tipPercentage, Persons(items), n) && sum == AmountSum(Items(items, tipPercentage))
    ensures raw - n as real * 0.05 < sum <= raw + n as real * 0.05
  {
    ItemsSum(items, tipPercentage);
  }

  /** The rounded amounts of the bill add up to within half a tenth per
      person of the exact tipped amounts. */
  lemma {:induction false} ItemsSum(items: seq<BillItem>, tipPercentage: real)
    requires Persons(items) != []
    ensures var n := |Persons(items)|;
      var raw := RawSum(items, tipPercentage, Persons(items), n);
      raw - n as real * 0.05 < AmountSum(Items(items, tipPercentage)) <= raw + n as real * 0.05
  {
    AllotSum(items, tipPercentage, Persons(items), |Persons(items)|);
    ItemsAllot(items, tipPercentage);
  }

  /** The linear core of DriftBound: a sum within n × 0.05 of `raw`, and a
      rounded tip within 0.05 of the exact one that `raw` already contains. */
  lemma {:induction false} DriftArith(raw: real, sum: real, subTotal: real, exactTip: real, tip: real, n: nat)
    requires raw - n as real * 0.05 < sum <= raw + n as real * 0.05
    requires raw == subTotal + exactTip
    requires exactTip - 0.05 < tip <= exactTip + 0.05
    ensures -(n + 1) as real * 0.05 < subTotal + tip - sum < (n + 1) as real * 0.05
  {
  }

  /** With prices that are whole numbers of tenths and at most three persons,
      the amounts of the output add up exactly to its total. */
  lemma {:induction false} SplitConservesUpToThreePersons(input: BillInput, formatDate: string -> string)
    requires forall i :: 0 <= i < |input.items| ==> OnGrid(input.items[i].price)
    requires 1 <= |Persons(input.items)| <= 3
    ensures Split(input, formatDate).Success?
    ensures AmountSum(Split(input, formatDate).value.items) == Split(input, formatDate).value.totalAmount
  {
    var items, tipPercentage := input.items, input.tipPercentage;
    var subTotal := SubTotal(items);
    var total := subTotal + CalculateTip(subTotal, tipPercentage);
    var s := Items(items, tipPercentage);
    SubTotalOnGrid(items);
    OnGridAdd(subTotal, CalculateTip(subTotal, tipPercentage));
    AmountSumOnGrid(s);
    DriftBound(items, tipPercentage);
    var drift := total - AmountSum(s);
    if drift > 0.0 {
      OnGridAdd(total, AmountSum(s));
      OnGridSmallPositive(drift);
    }
    AdjustedConserves(total, s);
    assert Split(input, formatDate).value.items == Adjusted(total, s).value;
  }

  /** Four persons with a drink of 1.0 each. */
  const FourTeas: seq<BillItem> :=
    [Personal(1.0, "tea", "A"), Personal(1.0, "tea", "B"),
     Personal(1.0, "tea", "C"), Personal(1.0, "tea", "D")]

  lemma {:induction false} FourTeasPrefixes()
    ensures FourTeas[..1][..0] == [] && FourTeas[..2][..1] == FourTeas[..1]
    ensures FourTeas[..3][..2] == FourTeas[..2] && FourTeas[..4][..3] == FourTeas[..3]
    ensures FourTeas[..4] == FourTeas
  {
  }

  lemma {:induction false} FourTeasPersons()
    ensures Persons(FourTeas) == ["A", "B", "C", "D"]
  {
    FourTeasPrefixes();
    assert Persons(FourTeas[..1]) == ["A"];
    assert Persons(FourTeas[..2]) == ["A", "B"];
    assert Persons(FourTeas[..3]) == ["A", "B", "C"];
  }

  lemma {:induction false} FourTeasTotals()
    ensures SubTotal(FourTeas) == 4.0 && SharedTotal(FourTeas) == 0.0
    ensures CalculateTip(4.0, 4.0) == 0.2
  {
    FourTeasPrefixes();
    assert SubTotal(FourTeas[..1]) == 1.0 && SubTotal(FourTeas[..2]) == 2.0 && SubTotal(FourTeas[..3]) == 3.0;
    assert SharedTotal(FourTeas[..1]) == 0.0 && SharedTotal(FourTeas[..2]) == 0.0 && SharedTotal(FourTeas[..3]) == 0.0;
    assert OnGrid(0.2) by { assert (0.2 * 10.0).Floor == 2; }
    RoundTenthUnique(0.16, 0.2);
  }

  lemma {:induction false} FourTeasOwn(i: nat)
    requires i < 4
    ensures OwnTotal(FourTeas, ["A", "B", "C", "D"][i]) == 1.0
  {
    var p := ["A", "B", "C", "D"][i];
    FourTeasPrefixes();
    assert OwnTotal(FourTeas[..1], p) == if i == 0 then 1.0 else 0.0;
    assert OwnTotal(FourTeas[..2], p) == if i <= 1 then 1.0 else 0.0;
    assert OwnTotal(FourTeas[..3], p) == if i <= 2 then 1.0 else 0.0;
  }

  lemma {:induction false} FourTeasAmount(i: nat)
    requires i < 4
    ensures PersonAmount(FourTeas, 4.0, ["A", "B", "C", "D"][i], 4) == 1.0
  {
    var p := ["A", "B", "C", "D"][i];
    assert Accumulated(FourTeas, p, 4) == 1.0 by {
      AccumulatedSplit(FourTeas, p, 4);
      FourTeasTotals();
      FourTeasOwn(i);
    }
    assert Raw(FourTeas, 4.0, p, 4) == 1.04;
    assert OnGrid(1.0) by { assert (1.0 * 10.0).Floor == 10; }
    RoundTenthUnique(1.04, 1.0);
  }

  lemma {:induction false} FourTeasItems()
    ensures Items(FourTeas, 4.0)
      == [PersonItem("A", 1.0), PersonItem("B", 1.0), PersonItem("C", 1.0), PersonItem("D", 1.0)]
  {
    var names := ["A", "B", "C", "D"];
    FourTeasPersons();
    forall i | 0 <= i < 4
      ensures Items(FourTeas, 4.0)[i] == PersonItem(names[i], 1.0)
    {
      FourTeasAmount(i);
    }
  }

  /** Four persons with a drink of 1.0 each and a 4% tip: every amount rounds
      from 1.04 down to 1.0 while the tip rounds from 0.16 up to 0.2, so the
      drift is two tenths. The fixed correction of one tenth leaves the output
      one tenth short of its total of 4.2. */
  lemma {:induction false} ShortfallOfTwoTenths()
    ensures var r := Split(BillInput("2024-03-21", "cafe", 4.0, FourTeas), d => d);
      r.Success? && r.value.totalAmount == 4.2 && AmountSum(r.value.items) == 4.1
  {
    FourTeasTotals();
    FourTeasItems();
    var s := Items(FourTeas, 4.0);
    assert s[..1][..0] == [] && s[..2][..1] == s[..1] && s[..3][..2] == s[..2] && s[..4][..3] == s[..3] && s[..4] == s;
    assert AmountSum(s[..1]) == 1.0 && AmountSum(s[..2]) == 2.0 && AmountSum(s[..3]) == 3.0;
    assert AmountSum(s) == 4.0;
    AdjustedShortfall(4.2, s);
  }
}
