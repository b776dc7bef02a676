/** The allocator: subtotal, tip, the persons on the bill and what each of
    them owes before reconciliation (src/core.ts, calculateSubTotal to
    calculatePersonAmount).

    Every `reduce` and `forEach` of the source folds its list from left to
    right; the functions below follow the same order, peeling off the LAST
    element, so that a loop over a prefix `items[..i]` meets them directly. */
module Allocator {
  import opened Rounding
  import opened Bill

  // ---------------------------------------------------------------------
  // Subtotal

  /** No price of the bill is negative. */
  predicate PricesNonNegative(items: seq<BillItem>) {
    forall i :: 0 <= i < |items| ==> 0.0 <= items[i].price
  }

  /** `calculateSubTotal`: the sum of every price, shared and personal alike,
      from left to right. */
  function SubTotal(items: seq<BillItem>): real {
    if items == [] then 0.0 else SubTotal(items[..|items| - 1]) + items[|items| - 1].price
  }

  /** With no negative price the subtotal is at least every single price, and
      so never negative. */
  lemma {:induction false} SubTotalBounds(items: seq<BillItem>)
    requires PricesNonNegative(items)
    ensures 0.0 <= SubTotal(items)
    ensures forall i :: 0 <= i < |items| ==> items[i].price <= SubTotal(items)
  {
    if items != [] {
      var init := items[..|items| - 1];
      assert PricesNonNegative(init) by {
        forall i | 0 <= i < |init| ensures items[i] == init[i] { }
      }
      SubTotalBounds(init);
      forall i | 0 <= i < |init| ensures items[i].price <= SubTotal(items) {
        assert items[i] == init[i];
      }
    }
  }

  /** The prices of the shared items. */
  function SharedTotal(items: seq<BillItem>): real {
    if items == [] then 0.0
    else
      var last := items[|items| - 1];
      SharedTotal(items[..|items| - 1]) + if last.Shared? then last.price else 0.0
  }

  /** The prices of the personal items, whoever they belong to. */
  function PersonalTotal(items: seq<BillItem>): real {
    if items == [] then 0.0
    else
      var last := items[|items| - 1];
      PersonalTotal(items[..|items| - 1]) + if last.Personal? then last.price else 0.0
  }

  /** The prices of the personal items of `name`. */
  function OwnTotal(items: seq<BillItem>, name: string): real {
    if items == [] then 0.0
    else
      var last := items[|items| - 1];
      OwnTotal(items[..|items| - 1], name) + if Owns(last, name) then last.price else 0.0
  }

  /** The subtotal is additive: the bill of two lists is the sum of their bills. */
  lemma {:induction false} SubTotalAppend(a: seq<BillItem>, b: seq<BillItem>)
    ensures SubTotal(a + b) == SubTotal(a) + SubTotal(b)
  {
    if b == [] {
      assert a + b == a;
    } else {
      var b' := b[..|b| - 1];
      assert (a + b)[..|a + b| - 1] == a + b';
      assert (a + b)[|a + b| - 1] == b[|b| - 1];
      SubTotalAppend(a, b');
      assert SubTotal(a + b) == SubTotal(a + b') + b[|b| - 1].price;
    }
  }

  /** The subtotal counts shared and personal items alike: it is the shared
      total plus the personal total. */
  lemma {:induction false} SubTotalSplit(items: seq<BillItem>)
    ensures SubTotal(items) == SharedTotal(items) + PersonalTotal(items)
  {
    if items != [] {
      SubTotalSplit(items[..|items| - 1]);
    }
  }

  /** Prices that are whole numbers of tenths give a subtotal that is one too. */
  lemma {:induction false} SubTotalOnGrid(items: seq<BillItem>)
    requires forall i :: 0 <= i < |items| ==> OnGrid(items[i].price)
    ensures OnGrid(SubTotal(items))
  {
    if items == [] {
      assert (0.0 * 10.0).Floor == 0;
    } else {
      SubTotalOnGrid(items[..|items| - 1]);
      OnGridAdd(SubTotal(items[..|items| - 1]), items[|items| - 1].price);
    }
  }

  /** Someone who has no personal item owns nothing. */
  lemma {:induction false} OwnTotalOfStranger(items: seq<BillItem>, name: string)
    requires !IsPerson(items, name)
    ensures OwnTotal(items, name) == 0.0
  {
    if items != [] {
      var init := items[..|items| - 1];
      IsPersonSnoc(items);
      OwnTotalOfStranger(init, name);
    }
  }

  // ---------------------------------------------------------------------
  // Tip

  /** `calculateTip`: the percentage of the subtotal, to the nearest tenth. */
  function CalculateTip(subTotal: real, tipPercentage: real): (r: real)
    ensures OnGrid(r)
    ensures subTotal * tipPercentage / 100.0 - 0.05 < r <= subTotal * tipPercentage / 100.0 + 0.05
    ensures tipPercentage == 0.0 ==> r == 0.0
  {
    var tip := subTotal * tipPercentage / 100.0;
    assert tipPercentage == 0.0 ==> RoundTenth(tip) == 0.0 by {
      if tipPercentage == 0.0 {
        RoundTenthUnique(tip, 0.0);
      }
    }
    RoundTenth(tip)
  }

  // ---------------------------------------------------------------------
  // Persons

  /** Adding an item adds at most its own person. */
  lemma {:induction false} IsPersonSnoc(items: seq<BillItem>)
    requires items != []
    ensures forall p :: IsPerson(items, p) <==>
      IsPerson(items[..|items| - 1], p) || Owns(items[|items| - 1], p)
  {
    var init := items[..|items| - 1];
    forall p
      ensures IsPerson(items, p) <==> IsPerson(init, p) || Owns(items[|items| - 1], p)
    {
      if IsPerson(init, p) {
        var i :| 0 <= i < |init| && Owns(init[i], p);
        assert items[i] == init[i];
      }
      if IsPerson(items, p) && !Owns(items[|items| - 1], p) {
        var i :| 0 <= i < |items| && Owns(items[i], p);
        assert init[i] == items[i];
      }
    }
  }

  /** The persons of the bill as `scanPersons` returns them: an
      insertion-ordered set of the persons of the personal items. Each
      person appears once, and exactly the persons of personal items appear. */
  function Persons(items: seq<BillItem>): (r: seq<string>)
    ensures NoDuplicates(r)
    ensures forall p :: p in r <==> IsPerson(items, p)
  {
    if items == [] then []
    else
      var last := items[|items| - 1];
      var ps := Persons(items[..|items| - 1]);
      IsPersonSnoc(items);
      if last.Personal? && last.person !in ps then ps + [last.person] else ps
  }

  /** The index of the first personal item of `p`. */
  function FirstIndex(items: seq<BillItem>, p: string): (k: nat)
    requires IsPerson(items, p)
    ensures k < |items| && Owns(items[k], p)
    ensures forall j :: 0 <= j < k ==> !Owns(items[j], p)
  {
    if Owns(items[0], p) then 0
    else
      assert IsPerson(items[1..], p) by {
        var i :| 0 <= i < |items| && Owns(items[i], p);
        assert items[1..][i - 1] == items[i];
      }
      1 + FirstIndex(items[1..], p)
  }

  /** Appending an item does not move the first occurrence of a known person. */
  lemma {:induction false} FirstIndexSnoc(items: seq<BillItem>, p: string)
    requires items != [] && IsPerson(items[..|items| - 1], p)
    ensures IsPerson(items, p)
    ensures FirstIndex(items, p) == FirstIndex(items[..|items| - 1], p)
  {
    var init := items[..|items| - 1];
    IsPersonSnoc(items);
    var k := FirstIndex(init, p);
    var k' := FirstIndex(items, p);
    assert items[k] == init[k];
    assert k' <= k;
    assert init[k'] == items[k'];
  }

  /** The persons come in the order of their first personal item. */
  lemma {:induction false} PersonsFirstOccurrence(items: seq<BillItem>, i: nat, j: nat)
    requires i < j < |Persons(items)|
    ensures FirstIndex(items, Persons(items)[i]) < FirstIndex(items, Persons(items)[j])
  {
    var init, last := items[..|items| - 1], items[|items| - 1];
    var ps, all := Persons(init), Persons(items);
    assert all[i] in all && all[j] in all;
    if j < |ps| {
      assert all[i] == ps[i] && all[j] == ps[j];
      assert ps[i] in ps && ps[j] in ps;
      PersonsFirstOccurrence(init, i, j);
      FirstIndexSnoc(items, ps[i]);
      FirstIndexSnoc(items, ps[j]);
    } else {
      assert all == ps + [last.person] && all[j] == last.person;
      assert all[i] == ps[i] && ps[i] in ps;
      FirstIndexSnoc(items, ps[i]);
      FirstIndexNew(items, last.person);
    }
  }

  /** A person whose first personal item is the last item. */
  lemma {:induction false} FirstIndexNew(items: seq<BillItem>, p: string)
    requires items != [] && Owns(items[|items| - 1], p) && !IsPerson(items[..|items| - 1], p)
    ensures IsPerson(items, p) && FirstIndex(items, p) == |items| - 1
  {
    var init := items[..|items| - 1];
    assert IsPerson(items, p) by {
      assert Owns(items[|items| - 1], p);
    }
    forall j | 0 <= j < |init|
      ensures !Owns(items[j], p)
    {
      assert items[j] == init[j];
    }
  }

  /** `scanPersons`: collects the persons into an insertion-ordered set. */
  method ScanPersons(items: seq<BillItem>) returns (persons: seq<string>)
    ensures persons == Persons(items)
  {
    persons := [];
    for i := 0 to |items|
      invariant persons == Persons(items[..i])
    {
      assert items[..i + 1][..i] == items[..i];
      var item := items[i];
      if item.Personal? && item.person !in persons {
        persons := persons + [item.person];
      }
    }
    assert items[..|items|] == items;
  }

  // ---------------------------------------------------------------------
  // Amount per person

  /** What one item adds to the amount of `name` before the tip. */
  function Share(item: BillItem, name: string, persons: nat): real
    requires persons > 0
  {
    if item.Shared? then item.price / persons as real
    else if item.person == name then item.price
    else 0.0
  }

  /** The amount `calculatePersonAmount` accumulates over the items. */
  function Accumulated(items: seq<BillItem>, name: string, persons: nat): real
    requires persons > 0
  {
    if items == [] then 0.0
    else Accumulated(items[..|items| - 1], name, persons) + Share(items[|items| - 1], name, persons)
  }

  /** With no negative price a person owes nothing negative before the tip,
      and never more than the whole subtotal. */
  lemma {:induction false} AccumulatedBounds(items: seq<BillItem>, name: string, persons: nat)
    requires persons > 0 && PricesNonNegative(items)
    ensures 0.0 <= Accumulated(items, name, persons) <= SubTotal(items)
  {
    if items != [] {
      var init, last := items[..|items| - 1], items[|items| - 1];
      assert PricesNonNegative(init) && 0.0 <= last.price by {
        forall i | 0 <= i < |init| ensures items[i] == init[i] { }
      }
      AccumulatedBounds(init, name, persons);
      if last.Shared? {
        DivAtMost(last.price, persons as real);
      }
    }
  }

  lemma {:induction false} DivAtMost(a: real, n: real)
    requires 0.0 <= a && 1.0 <= n
    ensures 0.0 <= a / n <= a
  {
    assert a / n * n == a;
  }

  /** The amount of `name` with its proportional tip, before rounding. */
  function Raw(items: seq<BillItem>, tipPercentage: real, name: string, persons: nat): real
    requires persons > 0
  {
    var amount := Accumulated(items, name, persons);
    amount + amount * tipPercentage / 100.0
  }

  /** `calculatePersonAmount`: the tipped amount of `name`, to the nearest tenth. */
  function PersonAmount(items: seq<BillItem>, tipPercentage: real, name: string, persons: nat): (r: real)
    requires persons > 0
    ensures OnGrid(r)
    ensures Raw(items, tipPercentage, name, persons) - 0.05 < r <= Raw(items, tipPercentage, name, persons) + 0.05
  {
    RoundTenth(Raw(items, tipPercentage, name, persons))
  }

  /** Each person pays an equal part of every shared item, their own items in
      full, and nothing of anybody else's personal items. */
  lemma {:induction false} AccumulatedSplit(items: seq<BillItem>, name: string, persons: nat)
    requires persons > 0
    ensures Accumulated(items, name, persons) == SharedTotal(items) / persons as real + OwnTotal(items, name)
  {
    if items != [] {
      var init, last := items[..|items| - 1], items[|items| - 1];
      AccumulatedSplit(init, name, persons);
      if last.Shared? {
        DivAdd(SharedTotal(init), last.price, persons as real);
      }
    }
  }

  lemma {:induction false} DivAdd(a: real, b: real, n: real)
    requires n != 0.0
    ensures (a + b) / n == a / n + b / n
  {
  }

  /** `calculatePersonAmount`: accumulates the person's part of each item in
      a loop, adds the proportional tip and rounds. */
  method CalculatePersonAmount(items: seq<BillItem>, tipPercentage: real, name: string, persons: nat)
    returns (amount: real)
    requires persons > 0
    ensures amount == PersonAmount(items, tipPercentage, name, persons)
  {
    amount := 0.0;
    for i := 0 to |items|
      invariant amount == Accumulated(items[..i], name, persons)
    {
      assert items[..i + 1][..i] == items[..i];
      var item := items[i];
      if item.Shared? {
        amount := amount + item.price / persons as real;
      } else if item.person == name {
        amount := amount + item.price;
      }
    }
    assert items[..|items|] == items;
    assert amount == Accumulated(items, name, persons);
    var tip := amount * tipPercentage / 100.0;
    amount := amount + tip;
    assert amount == Raw(items, tipPercentage, name, persons);
    amount := RoundTenth(amount);
  }

  // ---------------------------------------------------------------------
  // Per-person list

  /** `names.map(name => ({ name, amount: calculatePersonAmount(...) }))`. */
  function Allot(items: seq<BillItem>, tipPercentage: real, names: seq<string>, persons: nat): (r: seq<PersonItem>)
    requires persons > 0
    ensures |r| == |names|
    ensures forall i :: 0 <= i < |r| ==> r[i].name == names[i] && OnGrid(r[i].amount) &&
                                         Raw(items, tipPercentage, names[i], persons) - 0.05 < r[i].amount <= Raw(items, tipPercentage, names[i], persons) + 0.05
  {
    seq(|names|, i requires 0 <= i < |names| =>
      PersonItem(names[i], PersonAmount(items, tipPercentage, names[i], persons)))
  }

  /** `calculateItems`: one entry per person, in the order of `scanPersons`,
      each that person's `PersonAmount`, a whole number of tenths. With no persons the list is empty and no
      amount is computed, so nothing is divided by zero. */
  function Items(items: seq<BillItem>, tipPercentage: real): (r: seq<PersonItem>)
    ensures |r| == |Persons(items)|
    ensures forall i :: 0 <= i < |r| ==> r[i].name == Persons(items)[i] && OnGrid(r[i].amount)
    ensures forall i :: 0 <= i < |r| ==>
      r[i].amount == PersonAmount(items, tipPercentage, Persons(items)[i], |Persons(items)|)
  {
    var names := Persons(items);
    if names == [] then [] else Allot(items, tipPercentage, names, |names|)
  }

  /** With at least one person, the entries are the allotment to the persons. */
  lemma {:induction false} ItemsAllot(items: seq<BillItem>, tipPercentage: real)
    requires Persons(items) != []
    ensures Items(items, tipPercentage) == Allot(items, tipPercentage, Persons(items), |Persons(items)|)
  {
  }

  /** `calculateItems`, with the `map` written as a loop over the names. */
  method CalculateItems(items: seq<BillItem>, tipPercentage: real) returns (result: seq<PersonItem>)
    ensures result == Items(items, tipPercentage)
  {
    var names := ScanPersons(items);
    var persons := |names|;
    result := [];
    for i := 0 to |names|
      invariant persons > 0 ==> result == Allot(items, tipPercentage, names[..i], persons)
      invariant persons == 0 ==> result == []
    {
      var amount := CalculatePersonAmount(items, tipPercentage, names[i], persons);
      result := result + [PersonItem(names[i], amount)];
    }
    assert names[..|names|] == names;
  }

  // ---------------------------------------------------------------------
  // The per-person amounts before rounding add up to the tipped subtotal

  /** The own totals of `names`, added up. */
  function OwnSum(items: seq<BillItem>, names: seq<string>): real {
    if names == [] then 0.0
    else OwnSum(items, names[..|names| - 1]) + OwnTotal(items, names[|names| - 1])
  }

  /** The accumulated amounts of `names`, added up. */
  function AccumulatedSum(items: seq<BillItem>, names: seq<string>, persons: nat): real
    requires persons > 0
  {
    if names == [] then 0.0
    else AccumulatedSum(items, names[..|names| - 1], persons) + Accumulated(items, names[|names| - 1], persons)
  }

  /** The unrounded tipped amounts of `names`, added up. */
  function RawSum(items: seq<BillItem>, tipPercentage: real, names: seq<string>, persons: nat): real
    requires persons > 0
  {
    if names == [] then 0.0
    else RawSum(items, tipPercentage, names[..|names| - 1], persons) + Raw(items, tipPercentage, names[|names| - 1], persons)
  }

  lemma {:induction false} AccumulatedSumSplit(items: seq<BillItem>, names: seq<string>, persons: nat)
    requires persons > 0
    ensures AccumulatedSum(items, names, persons)
         == |names| as real * (SharedTotal(items) / persons as real) + OwnSum(items, names)
  {
    if names != [] {
      var init, last := names[..|names| - 1], names[|names| - 1];
      var share := SharedTotal(items) / persons as real;
      AccumulatedSumSplit(items, init, persons);
      AccumulatedSplit(items, last, persons);
      MulPred(|names|, share);
    }
  }

  lemma {:induction false} MulPred(n: nat, x: real)
    requires n > 0
    ensures n as real * x == (n - 1) as real * x + x
  {
  }

  /** An item of nobody in `names` leaves their own totals unchanged. */
  lemma {:induction false} OwnSumSnocOther(items: seq<BillItem>, x: BillItem, names: seq<string>)
    requires x.Shared? || x.person !in names
    ensures OwnSum(items + [x], names) == OwnSum(items, names)
  {
    assert (items + [x])[..|items|] == items;
    if names != [] {
      OwnSumSnocOther(items, x, names[..|names| - 1]);
    }
  }

  /** An item of someone who appears once in `names` adds its price once. */
  lemma {:induction false} OwnSumSnocOnce(items: seq<BillItem>, x: BillItem, names: seq<string>)
    requires x.Personal? && x.person in names && NoDuplicates(names)
    ensures OwnSum(items + [x], names) == OwnSum(items, names) + x.price
  {
    assert (items + [x])[..|items|] == items;
    var init := names[..|names| - 1];
    if names[|names| - 1] == x.person {
      assert x.person !in init;
      OwnSumSnocOther(items, x, init);
    } else {
      assert x.person in init;
      OwnSumSnocOnce(items, x, init);
    }
  }

  /** Over the persons of the bill, the own totals add up to the personal total:
      every personal item is owned by exactly one listed person. */
  lemma {:induction false} OwnSumPersons(items: seq<BillItem>)
    ensures OwnSum(items, Persons(items)) == PersonalTotal(items)
  {
    if items != [] {
      var init, x := items[..|items| - 1], items[|items| - 1];
      var ps := Persons(init);
      assert items == init + [x];
      OwnSumPersons(init);
      if x.Shared? {
        OwnSumSnocOther(init, x, ps);
      } else if x.person in ps {
        OwnSumSnocOnce(init, x, ps);
      } else {
        var all := ps + [x.person];
        assert Persons(items) == all && all[..|all| - 1] == ps;
        OwnSumSnocOther(init, x, ps);
        OwnTotalOfStranger(init, x.person);
      }
    }
  }

  lemma {:induction false} RawSumScale(items: seq<BillItem>, tipPercentage: real, names: seq<string>, persons: nat)
    requires persons > 0
    ensures RawSum(items, tipPercentage, names, persons)
         == AccumulatedSum(items, names, persons) + AccumulatedSum(items, names, persons) * tipPercentage / 100.0
  {
    if names != [] {
      RawSumScale(items, tipPercentage, names[..|names| - 1], persons);
    }
  }

  /** Before the tip, the amounts of `names` add up to the subtotal whenever
      their own totals cover the personal items: shared items are split
      without loss among them. */
  lemma {:induction false} AccumulatedSumCovers(items: seq<BillItem>, names: seq<string>)
    requires names != [] && OwnSum(items, names) == PersonalTotal(items)
    ensures AccumulatedSum(items, names, |names|) == SubTotal(items)
  {
    var n := |names|;
    AccumulatedSumSplit(items, names, n);
    SubTotalSplit(items);
    SharesCancel(AccumulatedSum(items, names, n), SharedTotal(items), OwnSum(items, names),
                 PersonalTotal(items), SubTotal(items), n as real);
  }

  lemma {:induction false} SharesCancel(total: real, shared: real, own: real, personal: real, subTotal: real, n: real)
    requires n != 0.0
    requires total == n * (shared / n) + own && own == personal && subTotal == shared + personal
    ensures total == subTotal
  {
    MulDivCancel(shared, n);
  }

  /** Before rounding, the persons' tipped amounts add up exactly to the
      subtotal plus its unrounded tip: every personal item is paid by its
      owner, who is listed once. */
  lemma {:induction false} AllocationConserves(items: seq<BillItem>, tipPercentage: real)
    requires Persons(items) != []
    ensures var names := Persons(items);
      RawSum(items, tipPercentage, names, |names|)
      == SubTotal(items) + SubTotal(items) * tipPercentage / 100.0
  {
    var names := Persons(items);
    OwnSumPersons(items);
    AccumulatedSumCovers(items, names);
    RawSumScale(items, tipPercentage, names, |names|);
  }

  lemma {:induction false} MulDivCancel(a: real, n: real)
    requires n != 0.0
    ensures n * (a / n) == a
  {
  }
}
