# AndroMoney to Moze: the `Record` value object

A Dafny model of the `Record` value object of the AndroMoney-to-Moze
converter. A `Record` is one personal-finance transaction between an
optional source account and an optional destination account. It is
validated and typed (income, expense or transfer) when it is constructed.
It is built from one row of an AndroMoney export and rendered into one or
two rows of a Moze import table.

Modules:

- `Results`: `Option` for nullable cells, `Result` for raised errors.
- `Decimal`: zero-padded decimal rendering (`Padded`) and its reading (`Value`).
- `Calendar`: dates as (year, month, day), times as (hour, minute), their
  AndroMoney codes `YYYYMMDD` / `HHMM`, and their Moze texts `YYYY/MM/DD` / `HH:MM`.
- `Records`: `RecordType`, the constructor arguments `Fields`, and the smart
  constructor `New` (`__post_init__`).
- `AndroMoney`: the export row and `FromAndroMoney` (`from_andromoney`).
- `Moze`: the sixteen-column row and `ToMoze` (`to_moze`).
- `Conversion`: the adapters composed, and worked examples.

An account or currency counts as given when it is `Some(s)` with `s`
non-empty, as Python's truthiness treats `None` and `''`. Amounts are
`Option<real>`. Python's exceptions are `Failure` values of one `Error` type.

## Model

| member | source | states |
|---|---|---|
| Records.New | atm/record.py:40-52 | construction fails, with the validation error, exactly when both accounts are empty, both amounts missing or both currencies empty; otherwise the arguments are kept and the type is Transfer iff both accounts are given, Expense iff only the source account is, Income iff only the destination account is |
| Records.ConstructedIffWellFormed | atm/record.py:40-52 | the records the constructor can produce are exactly the valid records whose type agrees with their accounts |
| AndroMoney.FromAndroMoney | atm/record.py:55-82 | a SYSTEM row with amount 0 is skipped, and no other row is; a SYSTEM row with any other amount fails naming its `Income(Transfer In)` account; a normal row succeeds iff its date and time parse and it has an account, an amount and a currency; on success the amount and currency go to both sides, the accounts, categories, payee, remark and project are mapped, the title is unset, and the date and time encode back to the row's codes |
| AndroMoney.FromAndroMoneyType | atm/record.py:47-52 | the type of a converted row follows from its `Expense(Transfer Out)` and `Income(Transfer In)` cells |
| Calendar.DecodeDate | atm/record.py:67 | a `YYYYMMDD` code that parses yields a date that encodes back to the same code |
| Calendar.DecodeDateExact | atm/record.py:67 | a code parses to a date iff that date has a four-digit year and encodes to the code |
| Calendar.DecodeTime | atm/record.py:68-69 | an `HHMM` code that parses yields a time that encodes back to the same code |
| Calendar.DecodeTimeExact | atm/record.py:68-69 | a code parses to a time iff that time encodes to the code |
| Calendar.RenderDate | atm/record.py:102 | the date text is ten characters with `/` at positions 4 and 7, and its three digit fields read back as year, month and day |
| Calendar.RenderDateInjective | atm/record.py:102 | distinct dates render to distinct texts |
| Calendar.RenderTime | atm/record.py:103 | the time text is five characters with `:` at position 2, and its two digit fields read back as hour and minute |
| Calendar.RenderTimeInjective | atm/record.py:103 | distinct times render to distinct texts |
| Moze.ToMoze | atm/record.py:84-114 | rendering fails only when the record has fewer than two categories, and never with the unsupported-type error; a transfer gives exactly two rows, the source leg typed "Transfer Out" with the negated source amount and the destination leg typed "Transfer In" with the destination amount; an expense gives only the source leg typed "Expense"; an income gives only the destination leg typed "Income"; every row carries the shared category, name, store, project, description, date and time columns, with Fee, Bonus, Tag and Target missing |
| Moze.EveryTypeSupported | atm/record.py:85-89 | every record type is one the renderer supports, so its unsupported-type guard cannot fire |
| Moze.LegsOfTransfer | atm/record.py:91-114 | an expense renders to the transfer's first row retyped "Expense", and an income to the transfer's second row retyped "Income" |
| Moze.RowCount | atm/record.py:110-114 | a constructed record with two categories renders to two rows when both accounts are given and to one row otherwise |
| Moze.ToMozeAsWritten | atm/record.py:84-114 | as the source computes it: rendering also fails when the source amount is missing, whatever the type; with a source amount present it agrees with `ToMoze` |
| Moze.AsWrittenRejectsIncomeWithoutSourceAmount | atm/record.py:97 | a valid income record with no source amount is rejected by the as-written renderer but rendered by `ToMoze`, with the destination amount as its price |
| Conversion.ConvertedRowsRender | atm/record.py:70-114 | a record read from an AndroMoney row always renders, the as-written renderer agrees on it, and it gives two rows iff both account cells are given |
| Conversion.ScenarioSkip | atm/record.py:58-60 | a SYSTEM row with amount 0 yields no record |
| Conversion.ScenarioInitialBalance | atm/record.py:61-65 | a SYSTEM row with amount 100 into "Cash" fails naming "Cash" |
| Conversion.SampleDateText | atm/record.py:102 | the date 2024-01-15 renders as "2024/01/15" |
| Conversion.ScenarioExpense | atm/record.py:47-52 | a 50 USD lunch from "Cash" on 20240115 is an expense rendering to one "Expense" row priced -50 dated "2024/01/15" |
| Conversion.ScenarioTransfer | atm/record.py:110-112 | the same row with "Bank" as destination is a transfer rendering to "Transfer Out" at -50 and "Transfer In" at 50 |
| Conversion.ScenarioNothingGiven | atm/record.py:41-45 | empty accounts and missing amounts are refused whatever the other fields hold |

## Left out

- The currency advisory `warnings.warn` at atm/record.py:56 is left out. It has no effect on the result.
- pandas plumbing is replaced: `replace(pd.NA, None)` and `pd.notna` become `Option`, and the DataFrame becomes a `seq` of rows. The NaN values of float columns are not distinguished from missing ones.
- The unsupported-type guard at atm/record.py:85-89 has no error value in the model. `RecordType` has only the three variants the source enum has, so the guard is dead code. `Select` matches exhaustively and `EveryTypeSupported` states why.
- DecodeDate: calendar validity is not checked. A day up to 31 is accepted in every month, so 20240231 parses here and is refused by pandas.
- DecodeDate: pandas also limits years to 1677-2262. The model accepts any four-digit year.
- DecodeDate: `%Y%m%d` also accepts some codes with fewer than eight digits, because month and day may be one digit. The model rejects every code that is not eight digits.
- DecodeTime: the `Time` cell is taken as an integer. The truncation `int()` applies to a float cell is not modelled.
- RenderDate: a year below 1000 is padded to four digits. Some platforms' `strftime` print it unpadded. Such years arise only for records built directly, never from an export row.
- The export row's `Date` cell is taken as always present. What pandas does with a missing date is not modelled.
- Reading and writing files, and the driver that converts a whole export row by row, are not part of this model.

## Findings

| source | as written | input that shows it | evidently intended | confidence | as-written member | corrected member |
|---|---|---|---|---|---|---|
| atm/record.py:97 | the template always computes `-self.from_amount`, so rendering raises TypeError whenever `from_amount` is `None`, even for an income record whose debit row is then dropped | `Record('', 'Bank', None, 100.0, '', 'USD', ['Salary', 'Monthly'], date(2024, 1, 15))`: construction succeeds as INCOME, `to_moze()` raises | the constructor accepts one missing amount, and the credit leg already passes a missing `to_amount` through as an empty price; the debit leg should do the same, so the income renders its credit row priced 100 | medium, not executed | Moze.AsWrittenRejectsIncomeWithoutSourceAmount | Moze.ToMoze |

Records read from an AndroMoney row are not affected. They carry the row's
amount on both sides, and validation forces that amount to be present
(`Conversion.ConvertedRowsRender`).
