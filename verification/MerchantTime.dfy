/** core/time.py with a fixed zone offset, and the promise checks of ptp_extractor.py. */
module MerchantTime {
  import opened Rows

  /** `utc_to_local`. */
  function UtcToLocal(instant: int, offset: int): int { instant + offset }

  function DayOf(local: int): int { local / DAY }

  /** `end_of_local_day_utc`: the exclusive end of a merchant-local day. */
  function EndOfLocalDayUtc(day: int, offset: int): int { (day + 1) * DAY - offset }

  /** An instant lies before the end of a day exactly when its local date is at most that day. */
  lemma EndOfDayIsExclusive(instant: int, day: int, offset: int)
    ensures instant < EndOfLocalDayUtc(day, offset) <==> DayOf(UtcToLocal(instant, offset)) <= day
  {
    var local := UtcToLocal(instant, offset);
    assert local == DayOf(local) * DAY + local % DAY;
    if DayOf(local) <= day {
      assert (DayOf(local) + 1) * DAY <= (day + 1) * DAY;
    } else {
      assert (day + 1) * DAY <= DayOf(local) * DAY;
    }
  }
}

module PromiseValidation {
  import opened Rows
  import opened MerchantTime

  datatype Intent = PromiseToPay | NotAPromise | Uncertain | PaymentClaim | DisputeIntent | Unclear

  datatype RawDate = Unparseable | IsoDay(day: int)

  /** What the extractor reports; a field and its legacy twin may each be missing. */
  datatype Extraction = Extraction(
    intent: Intent,
    confidence: real,
    amount: Option<int>,
    promisedAmount: Option<int>,
    date: Option<RawDate>,
    promisedDate: Option<RawDate>)

  datatype Reason =
    | WrongIntent | LowConfidence | MissingAmount | NotPositive | ExceedsOutstanding
    | MissingDate | BadDate | InThePast | BeyondHorizon | AbsurdlyFar

  datatype Validation = Valid(amount: int, day: int) | Invalid(reason: Reason)

  const DEFAULT_HORIZON_DAYS: int := 14
  const MAX_HORIZON_DAYS: int := 90
  const MIN_CONFIDENCE: real := 0.6

  /** `validate_promise`. */
  function ValidatePromise(e: Extraction, outstanding: int, localNow: int): Validation {
    var today := DayOf(localNow);
    var rawAmount := if e.promisedAmount.Some? then e.promisedAmount else e.amount;
    var rawDate := if e.promisedDate.Some? then e.promisedDate else e.date;
    if !e.intent.PromiseToPay? then Invalid(WrongIntent)
    else if e.confidence < MIN_CONFIDENCE then Invalid(LowConfidence)
    else if rawAmount.None? then Invalid(MissingAmount)
    else if rawAmount.value <= 0 then Invalid(NotPositive)
    else if rawAmount.value > outstanding then Invalid(ExceedsOutstanding)
    else if rawDate.None? then Invalid(MissingDate)
    else if rawDate.value.Unparseable? then Invalid(BadDate)
    else if rawDate.value.day < today then Invalid(InThePast)
    else if rawDate.value.day > today + DEFAULT_HORIZON_DAYS then Invalid(BeyondHorizon)
    else if rawDate.value.day > today + MAX_HORIZON_DAYS then Invalid(AbsurdlyFar)
    else Valid(rawAmount.value, rawDate.value.day)
  }

  /**
    A promise accepted at `now` is for a positive amount within the outstanding balance,
    and its follow-up falls strictly after `now` and at most fifteen days after it.
   */
  lemma AcceptedPromiseIsTimely(e: Extraction, outstanding: int, now: int, offset: int)
    requires ValidatePromise(e, outstanding, UtcToLocal(now, offset)).Valid?
    ensures var v := ValidatePromise(e, outstanding, UtcToLocal(now, offset));
            && 0 < v.amount <= outstanding
            && now < EndOfLocalDayUtc(v.day, offset) <= now + 15 * DAY
  {
    var v := ValidatePromise(e, outstanding, UtcToLocal(now, offset));
    EndOfDayIsExclusive(now, v.day, offset);
    EndOfDayIsExclusive(now + 15 * DAY, v.day, offset);
    assert DayOf(UtcToLocal(now + 15 * DAY, offset)) == DayOf(UtcToLocal(now, offset)) + 15;
  }

  /** A field and its legacy twin: the newer one wins. */
  function OneOf<T>(newer: Option<T>, legacy: Option<T>): Option<T> { if newer.Some? then newer else legacy }

  /**
    Exactly which replies become promises, and what they record: a confident promise of a
    positive amount within the balance, for a day that has not ended and starts no later than
    fourteen local days from today.
   */
  lemma AcceptedExactly(e: Extraction, outstanding: int, now: int, offset: int)
    ensures var v, amount, date := ValidatePromise(e, outstanding, UtcToLocal(now, offset)),
                                   OneOf(e.promisedAmount, e.amount), OneOf(e.promisedDate, e.date);
            && (v.Valid? <==>
                && e.intent.PromiseToPay? && e.confidence >= 0.6
                && amount.Some? && 0 < amount.value <= outstanding
                && date.Some? && date.value.IsoDay?
                && now < EndOfLocalDayUtc(date.value.day, offset)
                && EndOfLocalDayUtc(date.value.day - 15, offset) <= now)
            && (v.Valid? ==> v.amount == amount.value && v.day == date.value.day)
  {
    var date := OneOf(e.promisedDate, e.date);
    if date.Some? && date.value.IsoDay? {
      EndOfDayIsExclusive(now, date.value.day, offset);
      EndOfDayIsExclusive(now, date.value.day - 15, offset);
    }
  }
}
