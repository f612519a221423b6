/** The two adapters composed: what an AndroMoney row becomes in Moze, and
    the worked examples of the conversion. */
module Conversion {
  import opened Results
  import opened Calendar
  import opened Records
  import AndroMoney
  import Moze

  /** A record read from an AndroMoney row always renders, to two rows when
      both account cells are given and to one otherwise, and the renderer
      as the source writes it gives the same rows: such a record carries
      the row's amount on both sides. */
  lemma ConvertedRowsRender(row: AndroMoney.Row)
    requires AndroMoney.FromAndroMoney(row).Success? && AndroMoney.FromAndroMoney(row).value.Some?
    ensures var rec := AndroMoney.FromAndroMoney(row).value.value;
            && Moze.ToMoze(rec).Success?
            && Moze.ToMozeAsWritten(rec) == Moze.ToMoze(rec)
            && |Moze.ToMoze(rec).value| ==
                 (if Filled(row.transferOut) && Filled(row.transferIn) then 2 else 1)
  {
  }

  /** An account-opening row without a balance produces nothing. */
  lemma ScenarioSkip(row: AndroMoney.Row)
    requires row.category == Some("SYSTEM") && row.amount == Some(0.0)
    ensures AndroMoney.FromAndroMoney(row) == Success(None)
  {
  }

  /** An account-opening row with a balance of 100 into "Cash" is refused,
      naming "Cash". */
  lemma ScenarioInitialBalance(row: AndroMoney.Row)
    requires row.category == Some("SYSTEM") && row.amount == Some(100.0)
    requires row.transferIn == Some("Cash")
    ensures AndroMoney.FromAndroMoney(row) == Failure(InitialBalance(Some("Cash")))
  {
  }

  /** The date of the worked examples, as Moze writes it. */
  lemma SampleDateText()
    ensures RenderDate(YMD(2024, 1, 15)) == "2024/01/15"
  {
    assert Decimal.Padded(2024, 4) == "2024";
    assert Decimal.Padded(1, 2) == "01";
    assert Decimal.Padded(15, 2) == "15";
  }

  /** A lunch of 50 USD paid from "Cash" on 2024-01-15 is an expense and
      renders to one row. */
  lemma ScenarioExpense()
    ensures var row := AndroMoney.Row(Some("Food"), Some("Lunch"), Some(50.0), Some("USD"),
                                      20240115, None, Some("Cash"), Some(""), None, None, None);
            var r := AndroMoney.FromAndroMoney(row);
            && r.Success? && r.value.Some?
            && r.value.value.recordType == Expense
            && Moze.ToMoze(r.value.value).Success?
            && var rows := Moze.ToMoze(r.value.value).value;
            && |rows| == 1
            && rows[0].account == Some("Cash") && rows[0].currency == Some("USD")
            && rows[0].kind == "Expense" && rows[0].price == Some(-50.0)
            && rows[0].date == "2024/01/15"
  {
    var row := AndroMoney.Row(Some("Food"), Some("Lunch"), Some(50.0), Some("USD"),
                              20240115, None, Some("Cash"), Some(""), None, None, None);
    var date: Date := YMD(2024, 1, 15);
    assert Calendar.DecodeDate(20240115) == Some(date);
    var rec := Record(AndroMoney.FieldsOf(row, date, None), Expense);
    assert AndroMoney.FromAndroMoney(row) == Success(Some(rec));
    SampleDateText();
  }

  /** The same lunch moved from "Cash" to "Bank" is a transfer and renders
      to a "Transfer Out" row of -50 and a "Transfer In" row of 50. */
  lemma ScenarioTransfer()
    ensures var row := AndroMoney.Row(Some("Food"), Some("Lunch"), Some(50.0), Some("USD"),
                                      20240115, None, Some("Cash"), Some("Bank"), None, None, None);
            var r := AndroMoney.FromAndroMoney(row);
            && r.Success? && r.value.Some?
            && r.value.value.recordType == Transfer
            && Moze.ToMoze(r.value.value).Success?
            && var rows := Moze.ToMoze(r.value.value).value;
            && |rows| == 2
            && rows[0].kind == "Transfer Out" && rows[0].price == Some(-50.0)
            && rows[1].kind == "Transfer In" && rows[1].price == Some(50.0)
  {
    assert Calendar.DecodeDate(20240115) == Some(YMD(2024, 1, 15));
  }

  /** Two empty accounts and two missing amounts are refused whatever the
      other fields hold. */
  lemma ScenarioNothingGiven(f: Fields)
    requires f.fromAccount == Some("") && f.toAccount == Some("")
    requires f.fromAmount.None? && f.toAmount.None?
    ensures New(f) == Failure(MissingSides)
  {
  }
}
