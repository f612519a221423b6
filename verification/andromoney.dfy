/** The source adapter: one row of an AndroMoney export becomes at most one
    record. AndroMoney keeps a single amount and currency per row, which
    the adapter copies to both sides of the record (the source warns about
    this on every call; the warning has no effect on the result). */
module AndroMoney {
  import opened Results
  import opened Calendar
  import opened Records

  /** The cells of one export row that the conversion reads. */
  datatype Row = Row(
    category: Option<string>,     // Category
    subCategory: Option<string>,  // Sub-Category
    amount: Option<real>,         // Amount
    currency: Option<string>,     // Currency
    date: int,                    // Date, as YYYYMMDD
    time: Option<int>,            // Time, as HHMM
    transferOut: Option<string>,  // Expense(Transfer Out): the source account
    transferIn: Option<string>,   // Income(Transfer In): the destination account
    payee: Option<string>,        // Payee/Payer
    remark: Option<string>,       // Remark
    project: Option<string>)      // Project

  /** The category AndroMoney gives the rows that open an account. */
  const System: string := "SYSTEM"

  /** The record fields of a row on the normal path, once its date and time
      have been decoded. */
  function FieldsOf(row: Row, date: Date, time: Option<Time>): Fields {
    Fields(row.transferOut, row.transferIn, row.amount, row.amount,
           row.currency, row.currency, [row.category, row.subCategory],
           date, time, row.payee, None, row.remark, row.project)
  }

  /** `Record.from_andromoney`. `Success(None)` is the skip signal. */
  function FromAndroMoney(row: Row): (r: Result<Option<Record>, Error>)
    // an account-opening row with no balance is skipped, and nothing else is
    ensures r == Success(None) <==> row.category == Some(System) && row.amount == Some(0.0)
    // an account-opening row with a balance is refused, naming the account
    ensures row.category == Some(System) && row.amount != Some(0.0) ==>
              r == Failure(InitialBalance(row.transferIn))
    // a normal row fails only on an unreadable date or time or on the record's validity
    ensures row.category != Some(System) ==>
              (r.Success? <==>
                 && DecodeDate(row.date).Some?
                 && (row.time.Some? ==> DecodeTime(row.time.value).Some?)
                 && (Filled(row.transferOut) || Filled(row.transferIn))
                 && row.amount.Some?
                 && Filled(row.currency))
    ensures row.category != Some(System) && r.Failure? ==>
              r.error == BadDate(row.date)
              || (row.time.Some? && r.error == BadTime(row.time.value))
              || r.error == MissingSides
    // the field mapping of the normal path
    ensures r.Success? && r.value.Some? ==>
              var f := r.value.value.fields;
              && f.fromAccount == row.transferOut && f.toAccount == row.transferIn
              && f.fromAmount == row.amount && f.toAmount == row.amount
              && f.fromCurrency == row.currency && f.toCurrency == row.currency
              && f.categories == [row.category, row.subCategory]
              && EncodeDate(f.date) == row.date
              && (f.time.None? <==> row.time.None?)
              && (f.time.Some? ==> EncodeTime(f.time.value) == row.time.value)
              && f.shop == row.payee && f.title.None?
              && f.detail == row.remark && f.project == row.project
              && WellFormed(r.value.value)
  {
    if row.category == Some(System) && row.amount == Some(0.0) then Success(None)
    else if row.category == Some(System) then Failure(InitialBalance(row.transferIn))
    else
      match DecodeDate(row.date)
      case None => Failure(BadDate(row.date))
      case Some(date) =>
        var time := if row.time.Some? then DecodeTime(row.time.value) else None;
        if row.time.Some? && time.None? then Failure(BadTime(row.time.value))
        else
          match New(FieldsOf(row, date, time))
          case Failure(e) => Failure(e)
          case Success(rec) => Success(Some(rec))
  }

  /** The type of a converted row follows from its two account cells. */
  lemma FromAndroMoneyType(row: Row)
    requires FromAndroMoney(row).Success? && FromAndroMoney(row).value.Some?
    ensures var t := FromAndroMoney(row).value.value.recordType;
            && (t == Transfer <==> Filled(row.transferOut) && Filled(row.transferIn))
            && (t == Expense <==> Filled(row.transferOut) && !Filled(row.transferIn))
            && (t == Income <==> !Filled(row.transferOut) && Filled(row.transferIn))
  {
  }
}
