/** Relative-date phrases (lib/utils/date-helpers.ts, `convertRelativeDate`): the
    phrase the extractor gave for a deadline becomes a wall-clock moment relative
    to "now". The phrase is first classified by the source's chain of guards, then
    the chosen rule moves the day and sets the time. */
module DateHelpers {
  import opened Types
  import opened Strings

  /** A local wall-clock moment: the day as a count of days since 1 January 1970
      (so `setDate(getDate() + n)` is `day + n`, month ends included), and the time. */
  datatype Moment = Moment(day: int, hour: int, minute: int, second: int, millis: int)

  predicate ValidMoment(m: Moment)
  {
    0 <= m.hour < 24 && 0 <= m.minute < 60 && 0 <= m.second < 60 && 0 <= m.millis < 1000
  }

  /** `getDay()`: 0 is Sunday; day 0 (1 January 1970) was a Thursday. */
  function Weekday(day: int): (w: int)
    ensures 0 <= w < 7
  {
    (day + 4) % 7
  }

  /** What the conversion yields: the platform's normalisation of an ISO-looking
      text, or a local moment. */
  datatype Deadline = Iso(text: string) | Local(at: Moment)

  /** The rule the guard chain picks. */
  datatype Phrase =
    | Blank
    | IsoText
    | SameDay(hour: int)
    | Tomorrow
    | DayName(index: nat)
    | NextWeek
    | EndOfWeek
    | Asap
    | InDays(n: nat)
    | InHours(n: nat)
    | Unrecognised

  const DayNames: seq<string> := ["sunday", "monday", "tuesday", "wednesday", "thursday", "friday", "saturday"]

  /** `/^\d{4}-\d{2}-\d{2}/`: the text opens with a year-month-day stamp. */
  predicate LooksIso(s: string)
  {
    |s| >= 10 && IsDigit(s[0]) && IsDigit(s[1]) && IsDigit(s[2]) && IsDigit(s[3]) && s[4] == '-' &&
    IsDigit(s[5]) && IsDigit(s[6]) && s[7] == '-' && IsDigit(s[8]) && IsDigit(s[9])
  }

  /** `toLowerCase().trim()`. */
  function Normal(s: string): string
  {
    Trim(Lower(s))
  }

  predicate SameDayPhrase(lower: string)
  {
    lower == "today" || Contains(lower, "end of day") || lower == "eod" || Contains(lower, "this evening")
  }

  /** The first day name, in Sunday-to-Saturday order, that occurs in the text. */
  function FirstDayName(lower: string, i: nat): (r: Option<nat>)
    requires i <= |DayNames|
    ensures r.Some? ==> i <= r.value < |DayNames| && Contains(lower, DayNames[r.value])
    ensures r.Some? ==> forall j :: i <= j < r.value ==> !Contains(lower, DayNames[j])
    ensures r.None? ==> forall j :: i <= j < |DayNames| ==> !Contains(lower, DayNames[j])
    decreases |DayNames| - i
  {
    if i == |DayNames| then None
    else if Contains(lower, DayNames[i]) then Some(i)
    else FirstDayName(lower, i + 1)
  }

  /** Length of the run of digits starting at `i`. */
  function DigitRun(s: string, i: nat): (n: nat)
    requires i <= |s|
    ensures i + n <= |s|
    ensures forall j :: i <= j < i + n ==> IsDigit(s[j])
    ensures i + n == |s| || !IsDigit(s[i + n])
    decreases |s| - i
  {
    if i < |s| && IsDigit(s[i]) then 1 + DigitRun(s, i + 1) else 0
  }

  /** `/in (\d+) <unit>/` matches at offset k: "in ", a digit run, then the unit
      (" day" or " hour"). The digits cannot give back characters to the unit, so the
      run is the maximal one. */
  predicate MatchesAt(s: string, k: nat, unit: string)
  {
    k + 3 <= |s| && s[k..k + 3] == "in " && DigitRun(s, k + 3) > 0 &&
    OccursAt(s, unit, k + 3 + DigitRun(s, k + 3))
  }

  function NumberAt(s: string, k: nat): nat
    requires k + 3 <= |s|
  {
    ParseDigits(s[k + 3..k + 3 + DigitRun(s, k + 3)])
  }

  /** The number of the leftmost match at or after `k`. */
  function FirstMatch(s: string, unit: string, k: nat): (r: Option<nat>)
    requires k <= |s|
    ensures r.Some? <==> exists j :: k <= j <= |s| && MatchesAt(s, j, unit)
    ensures r.Some? ==> exists j :: k <= j <= |s| && MatchesAt(s, j, unit) && r.value == NumberAt(s, j) &&
                                     forall i :: k <= i < j ==> !MatchesAt(s, i, unit)
    decreases |s| - k
  {
    if MatchesAt(s, k, unit) then Some(NumberAt(s, k))
    else if k == |s| then None
    else
      var r := FirstMatch(s, unit, k + 1);
      FirstMatchStep(s, unit, k, r);
      r
  }

  /** A miss at `k` carries the leftmost match found from `k + 1` back to `k`. */
  lemma FirstMatchStep(s: string, unit: string, k: nat, r: Option<nat>)
    requires k < |s| && !MatchesAt(s, k, unit)
    requires r.Some? <==> exists j :: k + 1 <= j <= |s| && MatchesAt(s, j, unit)
    requires r.Some? ==> exists j :: k + 1 <= j <= |s| && MatchesAt(s, j, unit) && r.value == NumberAt(s, j) &&
                                     forall i :: k + 1 <= i < j ==> !MatchesAt(s, i, unit)
    ensures r.Some? <==> exists j :: k <= j <= |s| && MatchesAt(s, j, unit)
    ensures r.Some? ==> exists j :: k <= j <= |s| && MatchesAt(s, j, unit) && r.value == NumberAt(s, j) &&
                                     forall i :: k <= i < j ==> !MatchesAt(s, i, unit)
  {
    if r.Some? {
      var j :| k + 1 <= j <= |s| && MatchesAt(s, j, unit) && r.value == NumberAt(s, j) &&
                forall i :: k + 1 <= i < j ==> !MatchesAt(s, i, unit);
      assert forall i :: k <= i < j ==> !MatchesAt(s, i, unit);
    }
  }

  /** The text gets past the same-day tests: it is not ISO and names no part of today. */
  predicate PastToday(text: string)
  {
    var lower := Normal(text);
    !LooksIso(text) && !SameDayPhrase(lower) && lower != "this morning" && lower != "this afternoon"
  }

  /** ... and does not say "tomorrow". */
  predicate PastTomorrow(text: string)
  {
    PastToday(text) && !Contains(Normal(text), "tomorrow")
  }

  /** No day name occurs in the text. */
  predicate NamesNoDay(lower: string)
  {
    forall i :: 0 <= i < |DayNames| ==> !Contains(lower, DayNames[i])
  }

  /** ... and names no weekday. */
  predicate PastDayNames(text: string)
  {
    PastTomorrow(text) && NamesNoDay(Normal(text))
  }

  /** ... and does not say "next week". */
  predicate PastNextWeek(text: string)
  {
    PastDayNames(text) && !Contains(Normal(text), "next week")
  }

  /** ... and does not say "end of (the) week". */
  predicate PastEndOfWeek(text: string)
  {
    PastNextWeek(text) && !Contains(Normal(text), "end of week") && !Contains(Normal(text), "end of the week")
  }

  /** ... and is not one of the words for "right now". */
  predicate PastAsap(text: string)
  {
    var lower := Normal(text);
    PastEndOfWeek(text) && lower != "asap" && lower != "immediately" && lower != "now"
  }

  /** The guard chain of `convertRelativeDate`, in the source's order. The ISO test
      looks at the text as given; every other test at its lower-cased, trimmed form.
      Each phrase is chosen exactly when its own test holds and every earlier test
      failed. */
  function Classify(input: Option<string>): (p: Phrase)
    ensures p == Blank <==> !Present(input)
    ensures Present(input) ==>
              var text := input.value; var lower := Normal(text);
              (p == IsoText <==> LooksIso(text)) &&
              (p == SameDay(17) <==> !LooksIso(text) && SameDayPhrase(lower)) &&
              (p == SameDay(9) <==> !LooksIso(text) && !SameDayPhrase(lower) && lower == "this morning") &&
              (p == SameDay(14) <==> !LooksIso(text) && !SameDayPhrase(lower) && lower == "this afternoon") &&
              (p == Tomorrow <==> PastToday(text) && Contains(lower, "tomorrow"))
    ensures Present(input) ==>
              var text := input.value; var lower := Normal(text);
              (p.DayName? <==> PastTomorrow(text) && !NamesNoDay(lower)) &&
              (p == NextWeek <==> PastDayNames(text) && Contains(lower, "next week")) &&
              (p == EndOfWeek <==> PastNextWeek(text) && (Contains(lower, "end of week") || Contains(lower, "end of the week"))) &&
              (p == Asap <==> PastEndOfWeek(text) && (lower == "asap" || lower == "immediately" || lower == "now"))
    ensures Present(input) ==>
              var text := input.value; var lower := Normal(text);
              (p.InDays? <==> PastAsap(text) && FirstMatch(lower, " day", 0).Some?) &&
              (p.InHours? <==> PastAsap(text) && FirstMatch(lower, " day", 0).None? && FirstMatch(lower, " hour", 0).Some?) &&
              (p == Unrecognised <==> PastAsap(text) && FirstMatch(lower, " day", 0).None? && FirstMatch(lower, " hour", 0).None?)
    ensures p.DayName? ==> Present(input) && p.index < |DayNames| && Contains(Normal(input.value), DayNames[p.index]) &&
                           forall j :: 0 <= j < p.index ==> !Contains(Normal(input.value), DayNames[j])
    ensures p.InDays? ==> Present(input) && p.n == FirstMatch(Normal(input.value), " day", 0).value
    ensures p.InHours? ==> Present(input) && p.n == FirstMatch(Normal(input.value), " hour", 0).value
    ensures p.InDays? ==> Present(input) && exists j :: 0 <= j <= |Normal(input.value)| && MatchesAt(Normal(input.value), j, " day")
  {
    if !Present(input) then Blank
    else
      var text := input.value;
      var lower := Normal(text);
      if LooksIso(text) then IsoText
      else if SameDayPhrase(lower) then SameDay(17)
      else if lower == "this morning" then SameDay(9)
      else if lower == "this afternoon" then SameDay(14)
      else if Contains(lower, "tomorrow") then Tomorrow
      else if FirstDayName(lower, 0).Some? then DayName(FirstDayName(lower, 0).value)
      else if Contains(lower, "next week") then NextWeek
      else if Contains(lower, "end of week") || Contains(lower, "end of the week") then EndOfWeek
      else if lower == "asap" || lower == "immediately" || lower == "now" then Asap
      else if FirstMatch(lower, " day", 0).Some? then InDays(FirstMatch(lower, " day", 0).value)
      else if FirstMatch(lower, " hour", 0).Some? then InHours(FirstMatch(lower, " hour", 0).value)
      else Unrecognised
  }

  /** The hour after "tomorrow": morning 9, afternoon 14, evening or night 18, else 9. */
  function TomorrowHour(lower: string): (h: int)
    ensures h == 9 || h == 14 || h == 18
    ensures h == 18 <==> !Contains(lower, "morning") && !Contains(lower, "afternoon") &&
                         (Contains(lower, "evening") || Contains(lower, "night"))
  {
    if Contains(lower, "morning") then 9
    else if Contains(lower, "afternoon") then 14
    else if Contains(lower, "evening") || Contains(lower, "night") then 18
    else 9
  }

  /** The hour after a day name: as after "tomorrow", except that "night" is not read. */
  function DayNameHour(lower: string): (h: int)
    ensures h == 9 || h == 14 || h == 18
    ensures h == 18 <==> !Contains(lower, "morning") && !Contains(lower, "afternoon") && Contains(lower, "evening")
  {
    if Contains(lower, "morning") then 9
    else if Contains(lower, "afternoon") then 14
    else if Contains(lower, "evening") then 18
    else 9
  }

  /** Days to the next occurrence of a weekday: one to seven, a week for today's. */
  function DaysUntil(target: int, current: int): (n: int)
    requires 0 <= target < 7 && 0 <= current < 7
    ensures 1 <= n <= 7
    ensures (current + n) % 7 == target
    ensures n == 7 <==> target == current
  {
    if target - current <= 0 then target - current + 7 else target - current
  }

  /** `(5 - getDay() + 7) % 7 || 7`: days to the next Friday, a week on a Friday. */
  function DaysUntilFriday(current: int): (n: int)
    requires 0 <= current < 7
    ensures 1 <= n <= 7
    ensures (current + n) % 7 == 5
    ensures n == 7 <==> current == 5
  {
    if (5 - current + 7) % 7 == 0 then 7 else (5 - current + 7) % 7
  }

  /** `setDate(getDate() + days)` then `setHours(hour, 0, 0, 0)`. */
  function At(now: Moment, days: int, hour: int): Moment
  {
    Moment(now.day + days, hour, 0, 0, 0)
  }

  /** `setHours(getHours() + n)`: later hours roll into later days; minutes, seconds
      and milliseconds are kept. */
  function PlusHours(now: Moment, n: nat): (m: Moment)
    requires ValidMoment(now)
    ensures ValidMoment(m)
    ensures m.day * 24 + m.hour == now.day * 24 + now.hour + n
    ensures m.minute == now.minute && m.second == now.second && m.millis == now.millis
  {
    var total := now.hour + n;
    Moment(now.day + total / 24, total % 24, now.minute, now.second, now.millis)
  }

  /** Weekdays advance with days, modulo seven. */
  lemma WeekdayShift(day: int, n: int)
    ensures Weekday(day + n) == (Weekday(day) + n) % 7
  {
  }

  /** The next occurrence of weekday `target`, one to seven days ahead, at `hour`. */
  function NextWeekday(now: Moment, target: int, hour: int): (m: Moment)
    requires 0 <= target < 7
    ensures 1 <= m.day - now.day <= 7 && Weekday(m.day) == target
    ensures target == Weekday(now.day) ==> m.day == now.day + 7
    ensures m == At(now, m.day - now.day, hour)
  {
    var days := DaysUntil(target, Weekday(now.day));
    WeekdayShift(now.day, days);
    At(now, days, hour)
  }

  /** The next Friday after today (a week ahead on a Friday), at five. */
  function NextFriday(now: Moment): (m: Moment)
    ensures 1 <= m.day - now.day <= 7 && Weekday(m.day) == 5 && m.hour == 17
    ensures m == At(now, m.day - now.day, 17)
  {
    var days := DaysUntilFriday(Weekday(now.day));
    WeekdayShift(now.day, days);
    At(now, days, 17)
  }

  /** The moment a classified phrase stands for. `text` is the phrase as given and
      `normalise` the platform's `new Date(s).toISOString()` (None when it throws on
      an invalid date). */
  function Resolve(p: Phrase, text: string, now: Moment, normalise: string -> Option<string>)
    : (r: Option<Deadline>)
    requires ValidMoment(now)
    requires p.DayName? ==> p.index < |DayNames|
    ensures (p == Blank || p == Unrecognised) ==> r.None?
    ensures p == IsoText ==> r == (if normalise(text).Some? then Some(Iso(normalise(text).value)) else None)
    ensures p.SameDay? ==> r == Some(Local(At(now, 0, p.hour)))
    ensures p == Asap ==> r == Some(Local(At(now, 0, 17)))
    ensures p == Tomorrow ==> r == Some(Local(At(now, 1, TomorrowHour(Normal(text)))))
    ensures p.DayName? ==>
              r.Some? && r.value.Local? && 1 <= r.value.at.day - now.day <= 7 &&
              Weekday(r.value.at.day) == p.index &&
              (p.index == Weekday(now.day) ==> r.value.at.day == now.day + 7) &&
              r.value.at.hour == DayNameHour(Normal(text))
    ensures p.DayName? ==> r == Some(Local(NextWeekday(now, p.index, DayNameHour(Normal(text)))))
    ensures p == NextWeek ==> r == Some(Local(At(now, 7, 9)))
    ensures p == EndOfWeek ==>
              r.Some? && r.value.Local? && 1 <= r.value.at.day - now.day <= 7 &&
              Weekday(r.value.at.day) == 5 && r.value.at.hour == 17
    ensures p == EndOfWeek ==> r == Some(Local(NextFriday(now)))
    ensures p.InDays? ==> r == Some(Local(At(now, p.n, 9)))
    ensures p.InHours? ==> r == Some(Local(PlusHours(now, p.n)))
    ensures r.Some? && r.value.Local? ==> r.value.at.day >= now.day
  {
    match p
    case Blank => None
    case Unrecognised => None
    case IsoText =>
      var n := normalise(text);
      if n.Some? then Some(Iso(n.value)) else None
    case SameDay(hour) => Some(Local(At(now, 0, hour)))
    case Asap => Some(Local(At(now, 0, 17)))
    case Tomorrow => Some(Local(At(now, 1, TomorrowHour(Normal(text)))))
    case DayName(i) => Some(Local(NextWeekday(now, i, DayNameHour(Normal(text)))))
    case NextWeek => Some(Local(At(now, 7, 9)))
    case EndOfWeek => Some(Local(NextFriday(now)))
    case InDays(n) => Some(Local(At(now, n, 9)))
    case InHours(n) => Some(Local(PlusHours(now, n)))
  }

  /** The largest distance from the epoch a `Date` holds, in milliseconds. */
  const MaxTimeValue: int := 8640000000000000

  /** A moment's distance from the epoch in milliseconds, the zone offset aside. */
  function TimeValue(m: Moment): int
  {
    m.day * MillisPerDay + m.hour * MillisPerHour + m.minute * MillisPerMinute + m.second * 1000 + m.millis
  }

  /** A moment a `Date` can hold; past it the date is invalid and `toISOString`
      throws a RangeError. */
  predicate InDateRange(m: Moment)
  {
    -MaxTimeValue <= TimeValue(m) <= MaxTimeValue
  }

  /** What the conversion hands back: a deadline or null, or the RangeError it
      lets escape for a date past the representable range. */
  datatype Conversion = Converted(deadline: Option<Deadline>) | RangeError

  /** `convertRelativeDate`: classify, then resolve. A missing or empty input and an
      unrecognised phrase give no deadline; a local result is today or later, and
      throws exactly when it lies outside the representable range. */
  function ConvertRelativeDate(input: Option<string>, now: Moment, normalise: string -> Option<string>)
    : (r: Conversion)
    requires ValidMoment(now)
    ensures !Present(input) ==> r == Converted(None)
    ensures Classify(input) == Unrecognised ==> r == Converted(None)
    ensures r == RangeError <==>
              var d := Resolve(Classify(input), if input.Some? then input.value else "", now, normalise);
              d.Some? && d.value.Local? && !InDateRange(d.value.at)
    ensures r.Converted? ==> r.deadline == Resolve(Classify(input), if input.Some? then input.value else "", now, normalise)
    ensures r.Converted? && r.deadline.Some? && r.deadline.value.Local? ==>
              r.deadline.value.at.day >= now.day && InDateRange(r.deadline.value.at)
  {
    var d := Resolve(Classify(input), if input.Some? then input.value else "", now, normalise);
    if d.Some? && d.value.Local? && !InDateRange(d.value.at) then RangeError else Converted(d)
  }

  /** "end of day" wins over "tomorrow": the same-day rule is tested first, so
      "end of day tomorrow" means today at five. */
  lemma SameDayBeforeTomorrow(text: string, now: Moment, normalise: string -> Option<string>)
    requires ValidMoment(now) && !LooksIso(text)
    requires Contains(Normal(text), "end of day") && Contains(Normal(text), "tomorrow")
    ensures var m := At(now, 0, 17);
            ConvertRelativeDate(Some(text), now, normalise) ==
              if InDateRange(m) then Converted(Some(Local(m))) else RangeError
  {
    ContainsEmptyNot(Normal(text), "end of day");
  }

  /** "in N days" past the last representable day throws instead of converting. */
  lemma FarFutureThrows(text: string, now: Moment, normalise: string -> Option<string>)
    requires ValidMoment(now)
    requires Classify(Some(text)).InDays?
    requires now.day + Classify(Some(text)).n >= MaxTimeValue / MillisPerDay
    ensures ConvertRelativeDate(Some(text), now, normalise) == RangeError
  {
    var m := At(now, Classify(Some(text)).n, 9);
    assert TimeValue(m) >= (MaxTimeValue / MillisPerDay) * MillisPerDay + 9 * MillisPerHour;
  }

  /** A text that names a day wins over "next week", and the earliest name in
      Sunday-to-Saturday order is the one used. */
  lemma DayNameBeforeNextWeek(text: string, i: nat)
    requires Present(Some(text)) && !LooksIso(text) && i < |DayNames|
    requires !SameDayPhrase(Normal(text)) && !Contains(Normal(text), "tomorrow")
    requires Normal(text) != "this morning" && Normal(text) != "this afternoon"
    requires Contains(Normal(text), DayNames[i])
    ensures Classify(Some(text)).DayName? && Classify(Some(text)).index <= i
  {
    var lower := Normal(text);
    assert lower != "this morning" && lower != "this afternoon";
    assert FirstDayName(lower, 0).Some?;
  }

  /** A non-empty text contains nothing but itself of its length; used to see that a
      text containing a phrase is not empty. */
  lemma ContainsEmptyNot(s: string, t: string)
    requires Contains(s, t) && t != ""
    ensures s != ""
  {
  }
}
