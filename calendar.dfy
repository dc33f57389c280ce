/** The calendar service (lib/services/calendar.ts): the access-token cache, the
    mapping of the calendar API's events, and the event formatters. The HTTP calls
    are inputs: a refresh answer (None when the refresh fails) and the API's items. */
module Calendar {
  import opened Types
  import opened Strings

  /** Milliseconds of slack: a cached token is not used in its last minute. */
  const ExpirySlack: int := 60000
  const NoEvents: string := "No calendar events today."

  /** The token endpoint's answer: the token and its lifetime in seconds. */
  datatype TokenResponse = TokenResponse(accessToken: string, expiresIn: int)

  /** The module-level token cache (`cachedAccessToken`, `tokenExpiry`). */
  class TokenCache {
    var cachedAccessToken: Option<string>
    var tokenExpiry: Time

    constructor()
      ensures cachedAccessToken.None? && tokenExpiry == 0
    {
      cachedAccessToken := None;
      tokenExpiry := 0;
    }

    /** The cached token may be used at `now`: there is one, and it has more than a
        minute left. */
    predicate Usable(now: Time)
      reads this
    {
      Present(cachedAccessToken) && now < tokenExpiry - ExpirySlack
    }

    /** `getAccessToken`. `refresh` is the token endpoint's answer (None when the
        request fails and the call throws), received at `refreshedAt`. */
    method GetAccessToken(now: Time, refresh: Option<TokenResponse>, refreshedAt: Time)
      returns (token: Option<string>)
      modifies this
      ensures old(Usable(now)) ==> token == old(cachedAccessToken) && unchanged(this)
      ensures !old(Usable(now)) && refresh.None? ==> token.None? && unchanged(this)
      ensures !old(Usable(now)) && refresh.Some? ==>
                token == Some(refresh.value.accessToken) && cachedAccessToken == token &&
                tokenExpiry == refreshedAt + refresh.value.expiresIn * 1000
    {
      if Present(cachedAccessToken) && now < tokenExpiry - ExpirySlack {
        return cachedAccessToken;
      }
      if refresh.None? {
        return None;
      }
      cachedAccessToken := Some(refresh.value.accessToken);
      tokenExpiry := refreshedAt + refresh.value.expiresIn * 1000;
      return cachedAccessToken;
    }
  }

  /** A fresh refresh is reused by the next call exactly while the new token is
      non-empty and more than a minute from its expiry. */
  method RefreshThenReuse(now: Time, answer: TokenResponse, refreshedAt: Time, later: Time,
                          second: Option<TokenResponse>, secondAt: Time)
    returns (first: Option<string>, again: Option<string>)
    ensures first == Some(answer.accessToken)
    ensures answer.accessToken != "" && later < refreshedAt + answer.expiresIn * 1000 - ExpirySlack ==>
              again == first
    ensures !(answer.accessToken != "" && later < refreshedAt + answer.expiresIn * 1000 - ExpirySlack) ==>
              again == (if second.Some? then Some(second.value.accessToken) else None)
  {
    var cache := new TokenCache();
    first := cache.GetAccessToken(now, Some(answer), refreshedAt);
    again := cache.GetAccessToken(later, second, secondAt);
  }

  /** One item of the calendar API. */
  datatype ApiEvent = ApiEvent(
    id: string,
    summary: Option<string>,
    startDateTime: Option<string>,
    startDate: Option<string>,
    endDateTime: Option<string>,
    endDate: Option<string>,
    location: Option<string>)

  /** `a || b || ''`. */
  function FirstOf(a: Option<string>, b: Option<string>): (r: string)
    ensures Present(a) ==> r == a.value
    ensures !Present(a) && Present(b) ==> r == b.value
    ensures !Present(a) && !Present(b) ==> r == ""
  {
    if Present(a) then a.value else if Present(b) then b.value else ""
  }

  /** The event mapping of `getTodaysEvents` and `getUpcomingEvents`. */
  function MapEvent(e: ApiEvent): (r: CalendarEvent)
    ensures r.id == e.id && r.location == e.location
    ensures r.summary == if Present(e.summary) then e.summary.value else "No title"
    ensures r.start == FirstOf(e.startDateTime, e.startDate)
    ensures r.end == FirstOf(e.endDateTime, e.endDate)
  {
    CalendarEvent(e.id, if Present(e.summary) then e.summary.value else "No title",
                  FirstOf(e.startDateTime, e.startDate), FirstOf(e.endDateTime, e.endDate), e.location)
  }

  /** `(data.items || []).map(...)`: a missing item list is no events. */
  function MapEvents(items: Option<seq<ApiEvent>>): (r: seq<CalendarEvent>)
    ensures items.None? ==> r == []
    ensures items.Some? ==> |r| == |items.value|
    ensures items.Some? ==> forall k :: 0 <= k < |r| ==> r[k] == MapEvent(items.value[k])
  {
    if items.None? then []
    else seq(|items.value|, k requires 0 <= k < |items.value| => MapEvent(items.value[k]))
  }

  type Hour = h: int | 0 <= h < 24
  type Minute = m: int | 0 <= m < 60

  /** The local hour and minute of an event's start, as `new Date(start)` reads them. */
  datatype LocalTime = LocalTime(hour: Hour, minute: Minute)

  /** `hours % 12 || 12`. */
  function DisplayHour(h: Hour): (d: nat)
    ensures 1 <= d <= 12
    ensures h == 0 ==> d == 12
    ensures h == 12 ==> d == 12
    ensures 1 <= h <= 11 ==> d == h
    ensures 13 <= h ==> d == h - 12
  {
    if h % 12 == 0 then 12 else h % 12
  }

  /** `padStart(2, '0')` on the minutes. */
  function TwoDigits(m: Minute): (r: string)
    ensures |r| == 2 && IsDigit(r[0]) && IsDigit(r[1])
    ensures ParseDigits(r) == m
  {
    var r := [DigitChar(m / 10), DigitChar(m % 10)];
    assert r[..1] == [DigitChar(m / 10)];
    assert r[..1][..0] == [];
    assert DigitValue(r[0]) == m / 10 && DigitValue(r[1]) == m % 10;
    assert ParseDigits(r[..1]) == 10 * ParseDigits(r[..1][..0]) + DigitValue(r[0]) == m / 10;
    assert ParseDigits(r) == 10 * ParseDigits(r[..1]) + DigitValue(r[1]);
    r
  }

  function Meridiem(h: Hour): (r: string)
    ensures r == "am" <==> h < 12
    ensures r == "am" || r == "pm"
  {
    if h >= 12 then "pm" else "am"
  }

  /** A valid start on the twelve-hour clock: hour, colon, two-digit minutes, then
      "am" or "pm". */
  function ClockText(t: LocalTime): (r: string)
    ensures EndsWith(r, Meridiem(t.hour))
    ensures StartsWith(r, NatToString(DisplayHour(t.hour)) + ":" + TwoDigits(t.minute))
    ensures |r| == |NatToString(DisplayHour(t.hour)) + ":" + TwoDigits(t.minute)| + |Meridiem(t.hour)|
  {
    var head := NatToString(DisplayHour(t.hour)) + ":" + TwoDigits(t.minute);
    EndsWithAppend(head, Meridiem(t.hour));
    assert (head + Meridiem(t.hour))[..|head|] == head;
    head + Meridiem(t.hour)
  }

  /** What an unparseable start prints: NaN hours count as falsy (so 12), the
      minutes print as "NaN", and NaN is not at least 12 (so "am"). */
  const InvalidTime: string := "12:NaNam"

  /** `formatEventTime`. `start` is the local hour and minute `new Date(start)`
      yields, None for an Invalid Date (the empty start a mapped event defaults to). */
  function FormatEventTime(start: Option<LocalTime>): (r: string)
    ensures start.Some? ==> r == ClockText(start.value)
    ensures start.None? ==> r == InvalidTime
  {
    if start.Some? then ClockText(start.value) else InvalidTime
  }

  /** An unparseable start never prints like a real clock time. */
  lemma InvalidTimeDistinct(t: LocalTime)
    ensures ClockText(t) != InvalidTime
  {
    var h := NatToString(DisplayHour(t.hour));
    var tail := ":" + TwoDigits(t.minute) + Meridiem(t.hour);
    var c := ClockText(t);
    assert c == h + tail;
    ColonAfterDigits(h, tail);
    assert c[ColonAt(c) + 1] == TwoDigits(t.minute)[0];
    assert InvalidTime == "12" + ":NaNam";
    ColonAfterDigits("12", ":NaNam");
    assert !IsDigit(InvalidTime[ColonAt(InvalidTime) + 1]);
  }

  /** Different clock times never print the same. */
  lemma {:induction false} ClockTextInjective(a: LocalTime, b: LocalTime)
    requires ClockText(a) == ClockText(b)
    ensures a == b
  {
    var ha := NatToString(DisplayHour(a.hour));
    var hb := NatToString(DisplayHour(b.hour));
    var ta := ":" + TwoDigits(a.minute) + Meridiem(a.hour);
    var tb := ":" + TwoDigits(b.minute) + Meridiem(b.hour);
    assert ClockText(a) == ha + ta;
    assert ClockText(b) == hb + tb;
    ColonAfterDigits(ha, ta);
    ColonAfterDigits(hb, tb);
    assert ha == (ha + ta)[..|ha|] == (hb + tb)[..|hb|] == hb;
    assert ta == (ha + ta)[|ha|..] == (hb + tb)[|hb|..] == tb;
    ParseNatToString(DisplayHour(a.hour));
    ParseNatToString(DisplayHour(b.hour));
    assert TwoDigits(a.minute) == ta[1..3] == tb[1..3] == TwoDigits(b.minute);
    assert Meridiem(a.hour) == ta[3..] == tb[3..] == Meridiem(b.hour);
  }

  /** Offset of the first ':' (the length when there is none). */
  function ColonAt(s: string): (n: nat)
    ensures n <= |s|
  {
    if s == [] then 0 else if s[0] == ':' then 0 else 1 + ColonAt(s[1..])
  }

  /** In a run of digits followed by a ':', the first ':' ends the run. */
  lemma {:induction false} ColonAfterDigits(x: string, u: string)
    requires forall i :: 0 <= i < |x| ==> IsDigit(x[i])
    requires |u| > 0 && u[0] == ':'
    ensures ColonAt(x + u) == |x|
  {
    if x == [] {
      assert x + u == u;
    } else {
      assert (x + u)[1..] == x[1..] + u;
      ColonAfterDigits(x[1..], u);
    }
  }

  /** One message line: time, summary, and " at <location>" when there is a location. */
  function EventText(e: CalendarEvent, timeOf: string -> Option<LocalTime>): (r: string)
    ensures StartsWith(r, FormatEventTime(timeOf(e.start)) + " " + e.summary)
    ensures !Present(e.location) ==> r == FormatEventTime(timeOf(e.start)) + " " + e.summary
    ensures Present(e.location) ==>
              EndsWith(r, " at " + e.location.value) &&
              |r| == |FormatEventTime(timeOf(e.start)) + " " + e.summary| + |" at " + e.location.value|
  {
    var head := FormatEventTime(timeOf(e.start)) + " " + e.summary;
    var place := if Present(e.location) then " at " + e.location.value else "";
    EndsWithAppend(head, place);
    assert (head + place)[..|head|] == head;
    head + place
  }

  function EventTexts(es: seq<CalendarEvent>, timeOf: string -> Option<LocalTime>): (r: seq<string>)
    ensures |r| == |es| && forall k :: 0 <= k < |es| ==> r[k] == EventText(es[k], timeOf)
  {
    seq(|es|, k requires 0 <= k < |es| => EventText(es[k], timeOf))
  }

  /** `formatEventsForMessage`: a fixed sentence for no events, otherwise one line per
      event in order. */
  function FormatEventsForMessage(es: seq<CalendarEvent>, timeOf: string -> Option<LocalTime>): (r: string)
    ensures es == [] ==> r == NoEvents
    ensures es != [] ==> r == Join(EventTexts(es, timeOf), "\n") && StartsWith(r, EventText(es[0], timeOf))
  {
    if es == [] then NoEvents
    else
      JoinStartsWithFirst(EventTexts(es, timeOf), "\n");
      Join(EventTexts(es, timeOf), "\n")
  }

  /** Every event appears in the message. */
  lemma EventsAllListed(es: seq<CalendarEvent>, timeOf: string -> Option<LocalTime>, k: nat)
    requires k < |es|
    ensures Contains(FormatEventsForMessage(es, timeOf), EventText(es[k], timeOf))
  {
    JoinContainsPart(EventTexts(es, timeOf), "\n", k);
  }
}
