/** Opening hours (services/openingtimes.py): today, tomorrow, the next opening day and a message. */
module Openingtimes {
  import opened Wrappers
  import opened Json
  import opened ViewCommon
  import EuropaparkApi

  /** `OpeningTime`. */
  datatype OpeningTime = OpeningTime(date: string, start: Option<string>, end: Option<string>)

  /** `OpeningTimesInfo`. */
  datatype OpeningTimesInfo = OpeningTimesInfo(today: Option<OpeningTime>, tomorrow: Option<OpeningTime>,
                                               next: Option<OpeningTime>, message: Json)

  /**
   * `extract_time`: the `HH:MM` part (characters 11 to 16) of an ISO
   * date-time string; None for a falsy value.
   */
  function ExtractTime(value: Json): (r: Option<string>)
    ensures !Truthy(value) ==> r.None?
    ensures value.JStr? && value.s != [] ==> r == Some(Slice(value.s, 11, 16))
    ensures r.Some? ==> |r.value| <= 5
    ensures value.JStr? && |value.s| >= 16 ==> r == Some(value.s[11..16])
  {
    if !Truthy(value) then None
    else if value.JStr? then Some(Slice(value.s, 11, 16))
    else None
  }

  /** The record of one day: its date cut to 10 characters and its start and end times. */
  function DayOf(day: Json): (r: OpeningTime)
    ensures |r.date| <= 10
    ensures var d := StrOr(day, "date", "");
      |r.date| == (if |d| < 10 then |d| else 10) && r.date == d[..|r.date|]
    ensures r.start == ExtractTime(Get(day, "start")) && r.end == ExtractTime(Get(day, "end"))
  {
    OpeningTime(Prefix(StrOr(day, "date", ""), 10), ExtractTime(Get(day, "start")), ExtractTime(Get(day, "end")))
  }

  /** The day record under `key`, present exactly when the raw field is truthy. */
  function DayIfPresent(raw: Json, key: string): (r: Option<OpeningTime>)
    ensures r.Some? <==> Truthy(Get(raw, key))
    ensures r.Some? ==> r.value == DayOf(Get(raw, key))
  {
    if Truthy(Get(raw, key)) then Some(DayOf(Get(raw, key))) else None
  }

  /** The first message's `long` text when there are messages, else None. */
  function MessageOf(raw: Json): (r: Json)
    ensures !Truthy(Get(raw, "messages")) ==> r == JNull
    ensures Get(raw, "messages").JArr? && Get(raw, "messages").items != [] ==> r == Get(Get(raw, "messages").items[0], "long")
  {
    var messages := Get(raw, "messages");
    if Truthy(messages) && messages.JArr? then Get(messages.items[0], "long") else JNull
  }

  /** `get_opening_times`: None when nothing is cached. */
  function OpeningTimes(cache: CacheView): (r: Option<OpeningTimesInfo>)
    ensures r.None? <==> Payload(cache, EuropaparkApi.OpeningTimes).None?
    ensures r.Some? ==>
      var raw := Payload(cache, EuropaparkApi.OpeningTimes).value;
      && (r.value.today.Some? <==> Truthy(Get(raw, "today")))
      && (r.value.tomorrow.Some? <==> Truthy(Get(raw, "tomorrow")))
      && (r.value.next.Some? <==> Truthy(Get(raw, "next")))
      && (r.value.today.Some? ==> r.value.today.value == DayOf(Get(raw, "today")))
      && (r.value.tomorrow.Some? ==> r.value.tomorrow.value == DayOf(Get(raw, "tomorrow")))
      && (r.value.next.Some? ==> r.value.next.value == DayOf(Get(raw, "next")))
      && r.value.message == MessageOf(raw)
  {
    match Payload(cache, EuropaparkApi.OpeningTimes)
    case None => None
    case Some(raw) =>
      Some(OpeningTimesInfo(DayIfPresent(raw, "today"), DayIfPresent(raw, "tomorrow"), DayIfPresent(raw, "next"),
                            MessageOf(raw)))
  }

  /** A full ISO timestamp yields its hour and minute. */
  lemma ExtractTimeExample()
    ensures ExtractTime(JStr("2025-07-01T09:00:00+02:00")) == Some("09:00")
  {
    assert "2025-07-01T09:00:00+02:00"[11..16] == "09:00";
  }
}
