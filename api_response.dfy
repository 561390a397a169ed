/** The response envelopes and the reset-time arithmetic of lib/services/api-response.ts. */
module ApiResponse {
  import opened Wrappers
  import opened Calendar

  /**
   * The JSON values the envelopes carry. Timestamps, `YYYY-MM-DD` days and `YYYY-MM` months
   * are kept as calendar values; their ISO rendering is not modelled.
   */
  datatype Value =
    | VNull
    | VBool(b: bool)
    | VInt(i: int)
    | VStr(s: string)
    | VTime(t: DateTime)
    | VDay(d: Date)
    | VMonth(m: YearMonth)
    | VList(items: seq<Value>)
    | VObj(fields: map<string, Value>)

  /** `{success: true, data, metadata}` or `{success: false, error: {message, code, details}}`. */
  datatype Envelope<T> =
    | SuccessBody(data: T, metadata: map<string, Value>)
    | ErrorBody(message: string, code: Option<string>, details: map<string, Value>)

  datatype HttpResponse<T> = HttpResponse(status: int, body: Envelope<T>)

  /** `{timestamp: stamp, ...fields}`: the caller's keys are kept and override the timestamp. */
  function Stamped(stamp: DateTime, fields: map<string, Value>): (r: map<string, Value>)
    ensures r.Keys == fields.Keys + {"timestamp"}
    ensures forall k :: k in fields ==> r[k] == fields[k]
    ensures "timestamp" !in fields ==> r["timestamp"] == VTime(stamp)
  {
    map["timestamp" := VTime(stamp)] + fields
  }

  function CreateSuccessResponse<T>(stamp: DateTime, data: T, metadata: map<string, Value>): (r: Envelope<T>)
    ensures r.SuccessBody? && r.data == data
    ensures r.metadata.Keys == metadata.Keys + {"timestamp"}
    ensures forall k :: k in metadata ==> r.metadata[k] == metadata[k]
    ensures "timestamp" !in metadata ==> r.metadata["timestamp"] == VTime(stamp)
  {
    SuccessBody(data, Stamped(stamp, metadata))
  }

  function CreateErrorResponse<T>(stamp: DateTime, message: string, code: Option<string>, details: map<string, Value>): (r: Envelope<T>)
    ensures r.ErrorBody? && r.message == message && r.code == code
    ensures r.details.Keys == details.Keys + {"timestamp"}
    ensures forall k :: k in details ==> r.details[k] == details[k]
    ensures "timestamp" !in details ==> r.details["timestamp"] == VTime(stamp)
  {
    ErrorBody(message, code, Stamped(stamp, details))
  }

  function SuccessResponse<T>(stamp: DateTime, data: T, metadata: map<string, Value> := map[], status: int := 200): HttpResponse<T> {
    HttpResponse(status, CreateSuccessResponse(stamp, data, metadata))
  }

  function ErrorResponse<T>(stamp: DateTime, message: string, status: int := 400, code: Option<string> := None,
                            details: map<string, Value> := map[]): HttpResponse<T> {
    HttpResponse(status, CreateErrorResponse(stamp, message, code, details))
  }

  /** Without an explicit status a success answers 200 and an error 400. */
  lemma DefaultStatuses<T>(stamp: DateTime, data: T, message: string)
    ensures SuccessResponse(stamp, data).status == 200
    ensures SuccessResponse(stamp, data).body == CreateSuccessResponse(stamp, data, map[])
    ensures ErrorResponse<T>(stamp, message).status == 400
    ensures ErrorResponse<T>(stamp, message).body == CreateErrorResponse(stamp, message, None, map[])
  {
  }

  datatype ResetTimes = ResetTimes(daily: DateTime, monthly: DateTime)

  function Midnight(d: Date): DateTime {
    DateTime(d, 0, 0, 0, 0)
  }

  /** When the quotas reset: the next UTC midnight, and 00:00 UTC on the first of the next month. */
  function ResetTimesAt(now: DateTime): ResetTimes
    requires ValidDate(now.date)
  {
    ResetTimes(Midnight(NextDate(now.date)), Midnight(FirstOfNextMonth(now.date)))
  }

  /** The reset instants bracket `now` as the quotas promise. */
  lemma ResetTimesBounds(now: DateTime)
    requires ValidDateTime(now)
    ensures var r := ResetTimesAt(now);
            && EpochMs(now) < EpochMs(r.daily) <= EpochMs(now) + MS_PER_DAY
            && EpochMs(r.daily) <= EpochMs(r.monthly)
            && r.monthly.date.day == 1
            && (now.date.month < 12 ==> r.monthly.date == Date(now.date.year, now.date.month + 1, 1))
            && (now.date.month == 12 ==> r.monthly.date == Date(now.date.year + 1, 1, 1))
  {
    NextDateIndex(now.date);
    FirstOfNextMonthIndex(now.date);
  }

  /**
   * `getResetTimes`: copies of `now` adjusted step by step with `setUTCHours` and
   * `setUTCMonth`, as the source does.
   */
  method GetResetTimes(now: DateTime) returns (r: ResetTimes)
    requires ValidDateTime(now)
    ensures r == ResetTimesAt(now)
    ensures EpochMs(now) < EpochMs(r.daily) <= EpochMs(now) + MS_PER_DAY
    ensures EpochMs(r.daily) <= EpochMs(r.monthly)
  {
    var dailyReset := now;
    dailyReset := SetUTCHours(dailyReset, 24);
    var monthlyReset := now;
    monthlyReset := SetUTCMonth(monthlyReset, GetUTCMonth(monthlyReset) + 1, 1);
    monthlyReset := SetUTCHours(monthlyReset, 0);
    r := ResetTimes(dailyReset, monthlyReset);
    ResetTimesBounds(now);
  }
}
