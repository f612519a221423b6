/** The `Record` value object: one transaction between an optional source
    account and an optional destination account, with its type derived once
    at construction from which accounts are present. */
module Records {
  import opened Results
  import opened Calendar

  /** The three transaction kinds of `RecordType`. */
  datatype RecordType = Income | Expense | Transfer

  /** Every error the converter raises. */
  datatype Error =
    | MissingSides                        // ValueError: both accounts, amounts or currencies missing
    | InitialBalance(account: Option<string>)  // ValueError: SYSTEM row with an opening balance
    | BadDate(dateCode: int)              // pd.to_datetime cannot parse the `Date` cell
    | BadTime(timeCode: int)              // pd.to_datetime cannot parse the `Time` cell
    | MissingCategory                     // IndexError: fewer than two categories
    | NoneNegated                         // TypeError: unary minus applied to a missing amount

  /** A text cell counts as given when it is present and non-empty
      (Python truthiness of `None` and `''`). */
  predicate Filled(s: Option<string>) {
    s.Some? && |s.value| > 0
  }

  /** The constructor arguments of a record: everything but its type. */
  datatype Fields = Fields(
    fromAccount: Option<string>,
    toAccount: Option<string>,
    fromAmount: Option<real>,
    toAmount: Option<real>,
    fromCurrency: Option<string>,
    toCurrency: Option<string>,
    categories: seq<Option<string>>,  // [main category, subcategory]
    date: Date,
    time: Option<Time>,
    shop: Option<string>,
    title: Option<string>,
    detail: Option<string>,
    project: Option<string>)

  datatype Record = Record(fields: Fields, recordType: RecordType)

  /** At least one account, one amount and one currency is given. */
  predicate Valid(f: Fields) {
    && (Filled(f.fromAccount) || Filled(f.toAccount))
    && (f.fromAmount.Some? || f.toAmount.Some?)
    && (Filled(f.fromCurrency) || Filled(f.toCurrency))
  }

  /** The type a record gets from which of its accounts are given. */
  function Classify(f: Fields): RecordType {
    if Filled(f.fromAccount) && Filled(f.toAccount) then Transfer
    else if Filled(f.fromAccount) then Expense
    else Income
  }

  /** A record as the constructor leaves it: valid, and typed by its accounts. */
  predicate WellFormed(r: Record) {
    Valid(r.fields) && r.recordType == Classify(r.fields)
  }

  /** `Record(...)` with `__post_init__`: refuses a record with no account,
      no amount or no currency on either side, and otherwise stores the
      arguments unchanged together with the derived type. */
  function New(f: Fields): (r: Result<Record, Error>)
    ensures r.Failure? <==>
              || (!Filled(f.fromAccount) && !Filled(f.toAccount))
              || (f.fromAmount.None? && f.toAmount.None?)
              || (!Filled(f.fromCurrency) && !Filled(f.toCurrency))
    ensures r.Failure? ==> r.error == MissingSides
    ensures r.Success? ==> r.value.fields == f
    ensures r.Success? ==>
              && (r.value.recordType == Transfer <==> Filled(f.fromAccount) && Filled(f.toAccount))
              && (r.value.recordType == Expense <==> Filled(f.fromAccount) && !Filled(f.toAccount))
              && (r.value.recordType == Income <==> !Filled(f.fromAccount) && Filled(f.toAccount))
  {
    if !Valid(f) then Failure(MissingSides)
    else Success(Record(f, Classify(f)))
  }

  /** The records the constructor can produce are exactly the well-formed ones. */
  lemma ConstructedIffWellFormed(r: Record)
    ensures (exists f :: New(f) == Success(r)) <==> WellFormed(r)
  {
    if WellFormed(r) {
      assert New(r.fields) == Success(r);
    }
  }
}
