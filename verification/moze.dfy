/** The target adapter: a record becomes one or two rows of a Moze import
    table. A two-row template holding the debit leg (row 0) and the credit
    leg (row 1) is built first; a transfer keeps both legs, an expense only
    the debit leg and an income only the credit leg. */
module Moze {
  import opened Results
  import opened Calendar
  import opened Records

  /** One row of the sixteen-column Moze table. Fee, Bonus, Tag and Target
      have no source data and are always missing. */
  datatype Row = Row(
    account: Option<string>,       // Account
    currency: Option<string>,      // Currency
    kind: string,                  // Type
    mainCategory: Option<string>,  // Main Category
    subcategory: Option<string>,   // Subcategory
    price: Option<real>,           // Price
    fee: Option<real>,             // Fee
    bonus: Option<real>,           // Bonus
    name: Option<string>,          // Name
    store: Option<string>,         // Store
    date: string,                  // Date, as YYYY/MM/DD
    time: Option<string>,          // Time, as HH:MM
    project: Option<string>,       // Project
    description: Option<string>,   // Description
    tag: Option<string>,           // Tag
    target: Option<string>)        // Target

  /** The columns both legs of a record share. */
  predicate SharedColumns(f: Fields, row: Row)
    requires |f.categories| >= 2
  {
    && row.mainCategory == f.categories[0]
    && row.subcategory == f.categories[1]
    && row.name == f.title
    && row.store == f.shop
    && row.project == f.project
    && row.description == f.detail
    && row.date == RenderDate(f.date)
    && (row.time.None? <==> f.time.None?)
    && (f.time.Some? ==> row.time == Some(RenderTime(f.time.value)))
    && row.fee.None? && row.bonus.None? && row.tag.None? && row.target.None?
  }

  /** A debit-leg price: the negated source amount. */
  function Negate(amount: Option<real>): (p: Option<real>)
    ensures p.Some? <==> amount.Some?
    ensures p.Some? ==> p.value + amount.value == 0.0
  {
    MapOption(amount, (a: real) => -a)
  }

  /** The debit leg: the source account pays the amount. */
  predicate IsDebit(f: Fields, row: Row, kind: string)
    requires |f.categories| >= 2
  {
    && row.account == f.fromAccount && row.currency == f.fromCurrency
    && row.kind == kind && row.price == Negate(f.fromAmount)
    && SharedColumns(f, row)
  }

  /** The credit leg: the destination account receives the amount. */
  predicate IsCredit(f: Fields, row: Row, kind: string)
    requires |f.categories| >= 2
  {
    && row.account == f.toAccount && row.currency == f.toCurrency
    && row.kind == kind && row.price == f.toAmount
    && SharedColumns(f, row)
  }

  /** One leg of the template, given its own account, currency, type and price. */
  function Leg(f: Fields, account: Option<string>, currency: Option<string>,
               kind: string, price: Option<real>): Row
    requires |f.categories| >= 2
  {
    Row(account, currency, kind, f.categories[0], f.categories[1], price,
        None, None, f.title, f.shop, RenderDate(f.date),
        MapOption(f.time, RenderTime), f.project, f.detail, None, None)
  }

  /** The two-row template: debit leg typed "Expense", credit leg typed "Income". */
  function Template(f: Fields, debitPrice: Option<real>): (rows: seq<Row>)
    requires |f.categories| >= 2
    ensures |rows| == 2
  {
    [Leg(f, f.fromAccount, f.fromCurrency, "Expense", debitPrice),
     Leg(f, f.toAccount, f.toCurrency, "Income", f.toAmount)]
  }

  /** Keeps the legs the record type calls for, retyping a transfer's legs. */
  function Select(t: RecordType, rows: seq<Row>): seq<Row>
    requires |rows| == 2
  {
    match t
    case Transfer => [rows[0].(kind := "Transfer Out"), rows[1].(kind := "Transfer In")]
    case Expense => rows[0..1]
    case Income => rows[1..2]
  }

  /** The types the renderer supports. */
  predicate Supported(t: RecordType) {
    t in {Expense, Income, Transfer}
  }

  /** The renderer's unsupported-type guard can never fire: every value of
      `RecordType` is one it supports, so `Select` needs no error case. */
  lemma EveryTypeSupported(t: RecordType)
    ensures Supported(t)
  {
  }

  /** `Record.to_moze`, with a missing source amount leaving the debit-leg
      price missing instead of failing (see `ToMozeAsWritten`). */
  function ToMoze(r: Record): (out: Result<seq<Row>, Error>)
    // the only failure is a record with fewer than two categories; in
    // particular the unsupported-type error is never raised
    ensures out.Failure? <==> |r.fields.categories| < 2
    ensures out.Failure? ==> out.error == MissingCategory
    ensures out.Success? && r.recordType == Transfer ==>
              && |out.value| == 2
              && IsDebit(r.fields, out.value[0], "Transfer Out")
              && IsCredit(r.fields, out.value[1], "Transfer In")
    ensures out.Success? && r.recordType == Expense ==>
              |out.value| == 1 && IsDebit(r.fields, out.value[0], "Expense")
    ensures out.Success? && r.recordType == Income ==>
              |out.value| == 1 && IsCredit(r.fields, out.value[0], "Income")
  {
    if |r.fields.categories| < 2 then Failure(MissingCategory)
    else Success(Select(r.recordType, Template(r.fields, Negate(r.fields.fromAmount))))
  }

  /** `Record.to_moze` as the source writes it: the template negates the
      source amount for every record type, so a record without one fails
      with a TypeError even when its debit leg is then dropped. */
  function ToMozeAsWritten(r: Record): (out: Result<seq<Row>, Error>)
    ensures out.Failure? <==> |r.fields.categories| < 2 || r.fields.fromAmount.None?
    ensures out.Failure? ==>
              out.error == (if |r.fields.categories| < 2 then MissingCategory else NoneNegated)
    ensures r.fields.fromAmount.Some? ==> out == ToMoze(r)
  {
    if |r.fields.categories| < 2 then Failure(MissingCategory)
    else if r.fields.fromAmount.None? then Failure(NoneNegated)
    else Success(Select(r.recordType, Template(r.fields, Some(-r.fields.fromAmount.value))))
  }

  /** The number of rows a record renders to follows from its accounts:
      two for a transfer, one otherwise. */
  lemma RowCount(f: Fields)
    requires New(f).Success? && |f.categories| >= 2
    ensures ToMoze(New(f).value).Success?
    ensures |ToMoze(New(f).value).value| == (if Filled(f.fromAccount) && Filled(f.toAccount) then 2 else 1)
  {
  }

  /** An expense renders to the debit row of the same record rendered as a
      transfer, typed "Expense"; an income to its credit row, typed "Income". */
  lemma {:induction false} LegsOfTransfer(f: Fields)
    requires |f.categories| >= 2
    ensures ToMoze(Record(f, Expense)).value == [ToMoze(Record(f, Transfer)).value[0].(kind := "Expense")]
    ensures ToMoze(Record(f, Income)).value == [ToMoze(Record(f, Transfer)).value[1].(kind := "Income")]
  {
  }

  /** The as-written renderer fails on a valid income record that has no
      source amount, where the corrected one renders its credit leg. */
  lemma AsWrittenRejectsIncomeWithoutSourceAmount()
    ensures var f := Fields(None, Some("Bank"), None, Some(100.0), None, Some("USD"),
                            [Some("Salary"), Some("Monthly")], YMD(2024, 1, 15), None,
                            None, None, None, None);
            && New(f) == Success(Record(f, Income))
            && ToMozeAsWritten(Record(f, Income)) == Failure(NoneNegated)
            && ToMoze(Record(f, Income)).Success?
            && ToMoze(Record(f, Income)).value[0].price == Some(100.0)
  {
  }
}
