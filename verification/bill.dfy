/** The records the bill splitter reads and produces. Money is an exact `real`. */
module Bill {

  /** A line item: either shared equally by every person on the bill, or
      owed in full by the one person it names. */
  datatype BillItem =
    | Shared(price: real, name: string)
    | Personal(price: real, name: string, person: string)

  /** What one person owes. */
  datatype PersonItem = PersonItem(name: string, amount: real)

  datatype BillInput = BillInput(
    date: string,
    location: string,
    tipPercentage: real,
    items: seq<BillItem>)

  datatype BillOutput = BillOutput(
    date: string,
    location: string,
    subTotal: real,
    tip: real,
    totalAmount: real,
    items: seq<PersonItem>)

  /** A value, or the message of the exception thrown instead. */
  datatype Result<T> = Success(value: T) | Failure(message: string)

  /** Success of a computation, or the exception it throws. */
  datatype Outcome = Pass | Fail(message: string)

  /** The TypeError that `reduce` without a seed throws on an empty array. */
  const EmptyReduce: string := "Reduce of empty array with no initial value"

  /** `item` is a personal item of `p`. */
  predicate Owns(item: BillItem, p: string) {
    item.Personal? && item.person == p
  }

  /** Some personal item of the bill names `p`. */
  predicate IsPerson(items: seq<BillItem>, p: string) {
    exists i :: 0 <= i < |items| && Owns(items[i], p)
  }

  predicate NoDuplicates(s: seq<string>) {
    forall i, j :: 0 <= i < j < |s| ==> s[i] != s[j]
  }
}
