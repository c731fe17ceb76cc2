/**
 * The validation and derivation that both the create handler (`index`) and the
 * `update` handler of app.py run on a submitted pair of readings: two checks in
 * a fixed order, then the consumption, the bill and the billing-period label.
 */
module Billing {
  import opened Results
  import opened Tariff
  import opened Calendar

  /** What a form submission carries once its dates and integers are parsed. */
  datatype ReadingPair = ReadingPair(
    lastReadingDate: Date, lastReading: int,
    currentReadingDate: Date, currentReading: int)

  /** The two ways a submission is refused. */
  datatype ValidationError = NonIncreasingReading | ReversedDateRange

  /** The message the list page shows for each refusal: "Error! " and the reason. */
  function Message(e: ValidationError): (s: string)
    ensures |s| > 7 && s[..7] == "Error! "
  {
    "Error! " + match e
      case NonIncreasingReading => "Current reading must be greater than Last reading"
      case ReversedDateRange => "Wrong Date Entries"
  }

  /** The fields computed from an accepted submission. */
  datatype Derived = Derived(totalUnits: int, totalCharge: real, billingPeriod: string)

  /**
   * Refuse a current reading below the last one; only then look at the dates,
   * refusing a current date before the last one; otherwise derive units, bill
   * and label. Equal readings and equal dates are accepted.
   */
  function ValidateAndDerive(p: ReadingPair): (r: Result<Derived, ValidationError>)
    ensures r == Err(NonIncreasingReading) <==> p.currentReading < p.lastReading
    ensures r.Ok? ==> r.value.totalUnits == p.currentReading - p.lastReading >= 0
    ensures r.Ok? ==> |r.value.billingPeriod| == 27
  {
    if p.currentReading < p.lastReading then Err(NonIncreasingReading)
    else if Before(p.currentReadingDate, p.lastReadingDate) then Err(ReversedDateRange)
    else
      var units := p.currentReading - p.lastReading;
      Ok(Derived(units, Charge(units), Period(p.lastReadingDate, p.currentReadingDate)))
  }

  /** A falling reading is refused for that reason whatever the dates are. */
  lemma ReadingCheckedFirst(p: ReadingPair, lastDate: Date, currentDate: Date)
    requires p.currentReading < p.lastReading
    ensures ValidateAndDerive(p) == Err(NonIncreasingReading)
    ensures ValidateAndDerive(p.(lastReadingDate := lastDate, currentReadingDate := currentDate))
            == Err(NonIncreasingReading)
  {
  }

  /** Which submissions are refused, and why, in terms of readings and day numbers. */
  lemma RefusalReasons(p: ReadingPair)
    ensures ValidateAndDerive(p) == Err(NonIncreasingReading) <==> p.currentReading < p.lastReading
    ensures ValidateAndDerive(p) == Err(ReversedDateRange) <==>
              p.lastReading <= p.currentReading
              && DayNumber(p.currentReadingDate) < DayNumber(p.lastReadingDate)
    ensures ValidateAndDerive(p).Ok? <==>
              p.lastReading <= p.currentReading
              && DayNumber(p.lastReadingDate) <= DayNumber(p.currentReadingDate)
  {
    BeforeIsChronological(p.currentReadingDate, p.lastReadingDate);
  }

  /**
   * An accepted submission: the units are the difference of the readings and
   * not negative, the bill is units times the band rate, equal to the linear
   * formula of the band, and the label names both dates, last first.
   */
  lemma AcceptedFields(p: ReadingPair)
    requires ValidateAndDerive(p).Ok?
    ensures ValidateAndDerive(p).value.totalUnits == p.currentReading - p.lastReading >= 0
    ensures ValidateAndDerive(p).value.totalCharge == Charge(p.currentReading - p.lastReading)
    ensures ValidateAndDerive(p).value.totalCharge
            == TierCharge(TierOf(p.currentReading - p.lastReading), p.currentReading - p.lastReading)
    ensures ValidateAndDerive(p).value.totalCharge >= 0.0
    ensures SplitPeriod(ValidateAndDerive(p).value.billingPeriod)
            == Some((p.lastReadingDate, p.currentReadingDate))
  {
    var units := p.currentReading - p.lastReading;
    assert ValidateAndDerive(p).value
           == Derived(units, Charge(units), Period(p.lastReadingDate, p.currentReadingDate));
    ChargeByTier(units);
    ChargeSign(units);
    PeriodRoundTrip(p.lastReadingDate, p.currentReadingDate);
  }

  /** Equal readings on properly ordered dates are accepted with nothing to pay. */
  lemma EqualReadingsCostNothing(p: ReadingPair)
    requires p.currentReading == p.lastReading
    requires !Before(p.currentReadingDate, p.lastReadingDate)
    ensures ValidateAndDerive(p).Ok?
    ensures ValidateAndDerive(p).value.totalUnits == 0
    ensures ValidateAndDerive(p).value.totalCharge == 0.0
  {
  }

  /** A larger consumption over the same dates is billed strictly more. */
  lemma MoreUnitsCostMore(p: ReadingPair, q: ReadingPair)
    requires p.lastReading <= p.currentReading && !Before(p.currentReadingDate, p.lastReadingDate)
    requires q.lastReading <= q.currentReading && !Before(q.currentReadingDate, q.lastReadingDate)
    requires p.currentReading - p.lastReading < q.currentReading - q.lastReading
    ensures ValidateAndDerive(p).Ok? && ValidateAndDerive(q).Ok?
    ensures ValidateAndDerive(p).value.totalCharge < ValidateAndDerive(q).value.totalCharge
  {
    ChargeIncreasing(p.currentReading - p.lastReading, q.currentReading - q.lastReading);
  }

  /** 150 units from 1 January to 1 February 2024, in the 121..180 band. */
  lemma Example150Units()
    ensures ValidateAndDerive(ReadingPair(Ymd(2024, 1, 1), 100, Ymd(2024, 2, 1), 250))
            == Ok(Derived(150, 5280.0, "Jan 01, 2024 - Feb 01, 2024"))
  {
    assert Period(Ymd(2024, 1, 1), Ymd(2024, 2, 1)) == "Jan 01, 2024 - Feb 01, 2024" by {
      PeriodExample();
    }
  }

  /** 50 units, in the flat band. */
  lemma Example50Units()
    ensures var r := ValidateAndDerive(ReadingPair(Ymd(2024, 1, 1), 0, Ymd(2024, 1, 15), 50));
      r.Ok? && r.value.totalUnits == 50 && r.value.totalCharge == 392.5
  {
  }
}
