/** Calendar values of a transaction: the date as a (year, month, day)
    triple and the optional time of day as an (hour, minute) pair, their
    numeric codes in the AndroMoney export (`YYYYMMDD`, `HHMM`) and their
    text renderings in the Moze import (`YYYY/MM/DD`, `HH:MM`). */
module Calendar {
  import opened Results
  import opened Decimal

  datatype YMD = YMD(year: int, month: int, day: int)

  /** Field ranges of a Python `datetime.date` (the day-of-month limit of
      each individual month is not modelled). */
  predicate InRange(d: YMD) {
    1 <= d.year <= 9999 && 1 <= d.month <= 12 && 1 <= d.day <= 31
  }

  type Date = d: YMD | InRange(d) witness YMD(1970, 1, 1)

  datatype HM = HM(hour: int, minute: int)

  predicate ClockRange(t: HM) {
    0 <= t.hour <= 23 && 0 <= t.minute <= 59
  }

  type Time = t: HM | ClockRange(t) witness HM(0, 0)

  /** The `YYYYMMDD` number AndroMoney stores for a date. */
  function EncodeDate(d: Date): int {
    d.year * 10000 + d.month * 100 + d.day
  }

  /** The `HHMM` number AndroMoney stores for a time of day. */
  function EncodeTime(t: Time): int {
    t.hour * 100 + t.minute
  }

  /** Parsing a `YYYYMMDD` code with the `%Y%m%d` format: an eight-digit
      code whose month and day fields are in range denotes a date;
      anything else is rejected. */
  function DecodeDate(code: int): (r: Option<Date>)
    ensures r.Some? ==> EncodeDate(r.value) == code && 1000 <= r.value.year
  {
    if code < 10000000 || 99999999 < code then None
    else
      var d := YMD(code / 10000, code / 100 % 100, code % 100);
      if InRange(d) then Some(d) else None
  }

  /** Parsing an `HHMM` code: the code is printed with `{:04}` and read
      back with `%H%M`, which succeeds exactly for a valid clock time. */
  function DecodeTime(code: int): (r: Option<Time>)
    ensures r.Some? ==> EncodeTime(r.value) == code
  {
    if code < 0 then None
    else
      var t := HM(code / 100, code % 100);
      if ClockRange(t) then Some(t) else None
  }

  /** Every date with a four-digit year is read back from its own code. */
  lemma DecodeEncodeDate(d: Date)
    requires 1000 <= d.year
    ensures DecodeDate(EncodeDate(d)) == Some(d)
  {
    var code := EncodeDate(d);
    var low := d.month * 100 + d.day;
    assert code == d.year * 10000 + low && 0 <= low < 10000;
    assert code / 10000 == d.year;
    assert code / 100 == d.year * 100 + d.month;
    assert code % 100 == d.day;
    assert code / 100 % 100 == d.month;
  }

  /** A code decodes to `d` exactly when `d` has a four-digit year and
      encodes to that code. */
  lemma DecodeDateExact(code: int, d: Date)
    ensures DecodeDate(code) == Some(d) <==> 1000 <= d.year && EncodeDate(d) == code
  {
    if 1000 <= d.year && EncodeDate(d) == code {
      DecodeEncodeDate(d);
    }
  }

  /** Every time of day is read back from its own code. */
  lemma DecodeEncodeTime(t: Time)
    ensures DecodeTime(EncodeTime(t)) == Some(t)
  {
  }

  /** A code decodes to `t` exactly when `t` encodes to that code. */
  lemma DecodeTimeExact(code: int, t: Time)
    ensures DecodeTime(code) == Some(t) <==> EncodeTime(t) == code
  {
    if EncodeTime(t) == code {
      DecodeEncodeTime(t);
    }
  }

  /** `date.strftime('%Y/%m/%d')`: the rendering has the three fields at
      fixed positions, and each reads back as the field it renders. */
  function RenderDate(d: Date): (s: string)
    ensures |s| == 10 && s[4] == '/' && s[7] == '/'
    ensures AllDigits(s[..4]) && AllDigits(s[5..7]) && AllDigits(s[8..])
    ensures Value(s[..4]) == d.year && Value(s[5..7]) == d.month && Value(s[8..]) == d.day
  {
    assert Pow10(4) == 10000 && Pow10(2) == 100;
    var y := Padded(d.year, 4);
    var m := Padded(d.month, 2);
    var dd := Padded(d.day, 2);
    var s := y + "/" + m + "/" + dd;
    assert s[..4] == y;
    assert s[5..7] == m;
    assert s[8..] == dd;
    s
  }

  /** `time.strftime('%H:%M')`: hour and minute at fixed positions, each
      reading back as the field it renders. */
  function RenderTime(t: Time): (s: string)
    ensures |s| == 5 && s[2] == ':'
    ensures AllDigits(s[..2]) && AllDigits(s[3..])
    ensures Value(s[..2]) == t.hour && Value(s[3..]) == t.minute
  {
    assert Pow10(2) == 100;
    var h := Padded(t.hour, 2);
    var m := Padded(t.minute, 2);
    var s := h + ":" + m;
    assert s[..2] == h;
    assert s[3..] == m;
    s
  }

  /** Distinct dates render to distinct texts. */
  lemma RenderDateInjective(a: Date, b: Date)
    requires RenderDate(a) == RenderDate(b)
    ensures a == b
  {
  }

  /** Distinct times render to distinct texts. */
  lemma RenderTimeInjective(a: Time, b: Time)
    requires RenderTime(a) == RenderTime(b)
    ensures a == b
  {
  }
}
