/**
 * The presentation helpers of the front end. Intl, `toLocaleString`,
 * `toLocaleDateString`, `Intl.RelativeTimeFormat` and the parsing of date
 * strings are outside the model; each enters as a function parameter, so what
 * is modelled is the guards, the fallbacks and which call is made.
 */
module Formatters {
  import opened Wrappers
  import opened JsValues

  // ---------------------------------------------------------------------------
  // formatCurrency

  /** `new Intl.NumberFormat(locale, {style: 'currency', currency, 2 fraction digits}).format(amount)` */
  datatype CurrencyCall = CurrencyCall(locale: string, currency: string, amount: real)

  /** The Intl call `formatCurrency` makes; None when it returns '-' instead. `currency` None is the default 'INR'. */
  function CurrencyRequest(amount: JsNumber, currency: Option<string>): (call: Option<CurrencyCall>)
    ensures call.None? <==> Unformattable(amount)
    ensures call.Some? ==> call.value.amount == amount.x && call.value.currency == currency.GetOr("INR")
    ensures call.Some? ==> (call.value.locale == "en-IN" <==> call.value.currency == "INR")
    ensures call.Some? ==> call.value.locale == "en-IN" || call.value.locale == "en-US"
  {
    if Unformattable(amount) then None
    else
      var code := currency.GetOr("INR");
      Some(CurrencyCall(if code == "INR" then "en-IN" else "en-US", code, amount.x))
  }

  function FormatCurrency(amount: JsNumber, currency: Option<string>, intl: CurrencyCall -> string): (s: string)
    ensures Unformattable(amount) ==> s == "-"
    ensures !Unformattable(amount) ==> s == intl(CurrencyRequest(amount, currency).value)
  {
    match CurrencyRequest(amount, currency)
    case None => "-"
    case Some(call) => intl(call)
  }

  // ---------------------------------------------------------------------------
  // formatNumber and formatPercentage

  /** The default decimals of `formatPercentage`, which the portfolio widget relies on. */
  const DefaultPercentDecimals: nat := 2

  /** `value.toLocaleString('en-US', {minimumFractionDigits: d, maximumFractionDigits: d})` */
  type LocaleNumber = (real, nat) -> string

  /** `formatNumber` (its default is 0 decimals) */
  function FormatNumber(number: JsNumber, decimals: nat, render: LocaleNumber): (s: string)
    ensures Unformattable(number) ==> s == "-"
    ensures !Unformattable(number) ==> s == render(number.x, decimals)
  {
    if Unformattable(number) then "-" else render(number.x, decimals)
  }

  /** The output ends in '%' exactly when the value was formatted, and is '-' otherwise. */
  function FormatPercentage(value: JsNumber, decimals: nat, render: LocaleNumber): (s: string)
    ensures s == "-" <==> Unformattable(value)
    ensures !Unformattable(value) ==> |s| > 0 && s[|s| - 1] == '%'
    ensures !Unformattable(value) ==> s[..|s| - 1] == render(value.x, decimals)
  {
    if Unformattable(value) then "-"
    else
      var out := render(value.x, decimals) + "%";
      assert out[|out| - 1] == '%' != "-"[0];
      out
  }

  // ---------------------------------------------------------------------------
  // formatDate

  /**
   * The date argument: null or undefined, a string, or a Date object with its
   * time value in milliseconds (None for an Invalid Date).
   */
  datatype DateArg = Absent | Text(s: string) | Moment(time: Option<int>)

  /** `!date` */
  predicate Falsy(date: DateArg) {
    date.Absent? || date == Text("")
  }

  /** `new Date(s).getTime()` for a string, None when it is NaN. */
  type DateParser = string -> Option<int>

  /** The option sets of `formatDate`, by key. */
  datatype DateStyle = Short | Medium | Long | Time | DateAndTime

  const DefaultDateFormat := "medium"

  function StyleName(style: DateStyle): string {
    match style
    case Short => "short"
    case Medium => "medium"
    case Long => "long"
    case Time => "time"
    case DateAndTime => "datetime"
  }

  const KnownFormats := {"short", "medium", "long", "time", "datetime"}

  /** `options[format] || options.medium`: an unknown key falls back to the medium set. */
  function StyleFor(format: string): (style: DateStyle)
    ensures StyleName(style) == format || (style == Medium && format !in KnownFormats)
  {
    if format == "short" then Short
    else if format == "long" then Long
    else if format == "time" then Time
    else if format == "datetime" then DateAndTime
    else Medium
  }

  /** Every key names its own option set. */
  lemma StyleForName(style: DateStyle)
    ensures StyleFor(StyleName(style)) == style
  {
  }

  /** What the guards of `formatDate` leave: '-', 'Invalid date', or a valid time value. */
  datatype ResolvedDate = Dash | InvalidDate | At(time: int)

  function ResolveDate(date: DateArg, parse: DateParser): (r: ResolvedDate)
    ensures r == Dash <==> Falsy(date)
    ensures r == InvalidDate <==> !Falsy(date) && (date.Text? ==> parse(date.s).None?) && (date.Moment? ==> date.time.None?)
    ensures r.At? && date.Moment? ==> date.time == Some(r.time)
    ensures r.At? && date.Text? ==> parse(date.s) == Some(r.time)
  {
    if Falsy(date) then Dash
    else
      var time := if date.Text? then parse(date.s) else date.time;
      if time.None? then InvalidDate else At(time.value)
  }

  /** `dateObj.toLocaleDateString('en-US', options)` */
  type LocaleDate = (int, DateStyle) -> string

  function FormatDate(date: DateArg, format: string, parse: DateParser, render: LocaleDate): (s: string)
    ensures Falsy(date) ==> s == "-"
    ensures ResolveDate(date, parse) == InvalidDate ==> s == "Invalid date"
    ensures ResolveDate(date, parse).At? ==> s == render(ResolveDate(date, parse).time, StyleFor(format))
  {
    match ResolveDate(date, parse)
    case Dash => "-"
    case InvalidDate => "Invalid date"
    case At(time) => render(time, StyleFor(format))
  }

  // ---------------------------------------------------------------------------
  // getRelativeTimeString

  /** `Math.floor(a / b)` for a positive divisor: the q with q*b <= a < q*b + b. */
  function Floor(a: int, b: int): (q: int)
    requires b > 0
    ensures q * b <= a < q * b + b
  {
    a / b
  }

  /** The floor is the only integer in its bracket. */
  lemma FloorUnique(a: int, b: int, q: int)
    requires b > 0 && q * b <= a < q * b + b
    ensures q == Floor(a, b)
  {
    var f := Floor(a, b);
    if q < f {
      MulMonotone(q + 1, f, b);
    } else if q > f {
      MulMonotone(f + 1, q, b);
    }
  }

  lemma MulMonotone(x: int, y: int, k: int)
    requires x <= y && k >= 0
    ensures x * k <= y * k
  {
  }

  lemma MulCancel(x: int, y: int, k: int)
    requires k > 0 && x * k < y * k
    ensures x < y
  {
  }

  /** Two floors in a row are one floor by the product of the divisors. */
  lemma FloorFloor(a: int, b: int, c: int)
    requires b > 0 && c > 0
    ensures Floor(Floor(a, b), c) == Floor(a, b * c)
  {
    var q := Floor(a, b);
    var r := Floor(q, c);
    MulMonotone(r * c, q, b);
    MulMonotone(q, r * c + c - 1, b);
    assert r * (b * c) == r * c * b;
    assert (r * c + c - 1) * b + b == r * (b * c) + b * c;
    FloorUnique(a, b * c, r);
  }

  const MillisPerDay := 86400000

  /**
   * The nested floors of `getRelativeTimeString` compose: the day count is the
   * floor of the difference by the length of a day, and it is negative exactly
   * when the difference is.
   */
  lemma NestedFloors(diffMs: int)
    ensures Floor(Floor(Floor(Floor(diffMs, 1000), 60), 60), 24) == Floor(diffMs, MillisPerDay)
    ensures Floor(diffMs, MillisPerDay) < 0 <==> diffMs < 0
  {
    FloorFloor(diffMs, 1000, 60);
    FloorFloor(diffMs, 60000, 60);
    FloorFloor(diffMs, 3600000, 24);
  }

  datatype TimeUnit = Day | Hour | Minute

  /** The branch `getRelativeTimeString` takes, with the arguments of the call it makes. */
  datatype Relative =
    | RelativeDash
    | RelativeInvalid
    | Absolute(time: int)
    | Ago(count: int, unit: TimeUnit)
    | JustNow

  /** Where the day count of a millisecond difference falls, relative to the 30-day cut-off. */
  lemma DayCountRange(diffMs: int)
    ensures var days := Floor(diffMs, MillisPerDay);
      && (diffMs < -30 * MillisPerDay ==> days < -30)
      && (-30 * MillisPerDay <= diffMs < 0 ==> -30 <= days <= -1)
      && (diffMs >= 0 ==> days >= 0)
  {
    var days := Floor(diffMs, MillisPerDay);
    if diffMs < -30 * MillisPerDay {
      MulCancel(days, -30, MillisPerDay);
    } else if diffMs < 0 {
      MulCancel(days, 0, MillisPerDay);
      MulCancel(-30, days + 1, MillisPerDay);
    }
  }

  /**
   * `getRelativeTimeString` against the clock reading `nowMs`, as written.
   * Because the floors round a past difference down, only the day branch is
   * ever taken for a past time.
   */
  function RelativeTime(date: DateArg, nowMs: int, parse: DateParser): (r: Relative)
    ensures r == RelativeDash <==> Falsy(date)
    ensures r == RelativeInvalid <==> ResolveDate(date, parse) == InvalidDate
    ensures r == JustNow <==> ResolveDate(date, parse).At? && ResolveDate(date, parse).time >= nowMs
    ensures r.Absolute? ==> ResolveDate(date, parse) == At(r.time) && r.time - nowMs < -30 * MillisPerDay
    ensures r.Ago? ==>
      && r.unit == Day && -30 <= r.count <= -1
      && r.count == Floor(ResolveDate(date, parse).time - nowMs, MillisPerDay)
  {
    match ResolveDate(date, parse)
    case Dash => RelativeDash
    case InvalidDate => RelativeInvalid
    case At(time) =>
      NestedFloors(time - nowMs);
      DayCountRange(time - nowMs);
      var diffInSeconds := Floor(time - nowMs, 1000);
      var diffInMinutes := Floor(diffInSeconds, 60);
      var diffInHours := Floor(diffInMinutes, 60);
      var diffInDays := Floor(diffInHours, 24);
      if diffInDays < -30 then Absolute(time)
      else if diffInDays < 0 then Ago(diffInDays, Day)
      else if diffInHours < 0 then Ago(diffInHours, Hour)
      else if diffInMinutes < 0 then Ago(diffInMinutes, Minute)
      else JustNow
  }

  /**
   * With floors, the hour and minute branches are dead: a past time gives a
   * day count from -30 to -1, or the absolute date when it is further back; any
   * other time gives 'just now'.
   */
  lemma RelativeTimeBranches(date: DateArg, nowMs: int, parse: DateParser)
    requires ResolveDate(date, parse).At?
    ensures var diffMs := ResolveDate(date, parse).time - nowMs;
      var r := RelativeTime(date, nowMs, parse);
      && (diffMs >= 0 ==> r == JustNow)
      && (-30 * MillisPerDay <= diffMs < 0 ==> r == Ago(Floor(diffMs, MillisPerDay), Day) && -30 <= r.count <= -1)
      && (diffMs < -30 * MillisPerDay ==> r == Absolute(ResolveDate(date, parse).time))
      && (r.Ago? ==> r.unit == Day)
  {
    DayCountRange(ResolveDate(date, parse).time - nowMs);
  }

  /** One second in the past already reads as a day ago ('yesterday'). */
  lemma OneSecondAgoIsADayAgo(nowMs: int, parse: DateParser)
    ensures RelativeTime(Moment(Some(nowMs - 1000)), nowMs, parse) == Ago(-1, Day)
  {
  }

  /** `Math.trunc(a / b)` for a positive divisor: the quotient rounded toward zero. */
  function Trunc(a: int, b: int): (q: int)
    requires b > 0
    ensures a >= 0 ==> q == Floor(a, b)
    ensures a < 0 ==> q == -Floor(-a, b)
  {
    if a >= 0 then a / b else -((-a) / b)
  }

  /**
   * `getRelativeTimeString` as its branches evidently intend: the same nested
   * divisions, rounded toward zero, so that the hour and minute branches are
   * reached.
   */
  function RelativeTimeIntended(date: DateArg, nowMs: int, parse: DateParser): Relative {
    match ResolveDate(date, parse)
    case Dash => RelativeDash
    case InvalidDate => RelativeInvalid
    case At(time) =>
      var diffInSeconds := Trunc(time - nowMs, 1000);
      var diffInMinutes := Trunc(diffInSeconds, 60);
      var diffInHours := Trunc(diffInMinutes, 60);
      var diffInDays := Trunc(diffInHours, 24);
      if diffInDays < -30 then Absolute(time)
      else if diffInDays < 0 then Ago(diffInDays, Day)
      else if diffInHours < 0 then Ago(diffInHours, Hour)
      else if diffInMinutes < 0 then Ago(diffInMinutes, Minute)
      else JustNow
  }

  /**
   * With rounding toward zero every unit is reached: under a minute is 'just
   * now', then whole minutes, whole hours, and whole days up to 30.
   */
  lemma RelativeTimeIntendedUnits(date: DateArg, nowMs: int, parse: DateParser)
    requires ResolveDate(date, parse).At?
    ensures var ago := nowMs - ResolveDate(date, parse).time;
      var r := RelativeTimeIntended(date, nowMs, parse);
      && (ago < 60000 ==> r == JustNow)
      && (60000 <= ago < 3600000 ==> r == Ago(-Floor(ago, 60000), Minute))
      && (3600000 <= ago < MillisPerDay ==> r == Ago(-Floor(ago, 3600000), Hour))
      && (MillisPerDay <= ago < 31 * MillisPerDay ==> r == Ago(-Floor(ago, MillisPerDay), Day))
      && (31 * MillisPerDay <= ago ==> r == Absolute(ResolveDate(date, parse).time))
  {
    var ago := nowMs - ResolveDate(date, parse).time;
    if ago > 0 {
      FloorFloor(ago, 1000, 60);
      FloorFloor(ago, 60000, 60);
      FloorFloor(ago, 3600000, 24);
      var days := Floor(ago, MillisPerDay);
      var hours := Floor(ago, 3600000);
      var minutes := Floor(ago, 60000);
      if ago < 31 * MillisPerDay {
        MulCancel(days, 31, MillisPerDay);
      } else {
        MulCancel(31, days + 1, MillisPerDay);
      }
    }
  }

  /** Two hours ago reads '2 hours ago', the example the helper is documented with. */
  lemma TwoHoursAgoIntended(nowMs: int, parse: DateParser)
    ensures RelativeTimeIntended(Moment(Some(nowMs - 7200000)), nowMs, parse) == Ago(-2, Hour)
    ensures RelativeTime(Moment(Some(nowMs - 7200000)), nowMs, parse) == Ago(-1, Day)
  {
  }

  /** `rtf.format(count, unit)` */
  type RelativeFormat = (int, TimeUnit) -> string

  /** The string for a chosen branch: the absolute date is formatted with the default (medium) option set. */
  function RenderRelative(r: Relative, parse: DateParser, renderDate: LocaleDate, rtf: RelativeFormat): string {
    match r
    case RelativeDash => "-"
    case RelativeInvalid => "Invalid date"
    case Absolute(time) => FormatDate(Moment(Some(time)), DefaultDateFormat, parse, renderDate)
    case Ago(count, unit) => rtf(count, unit)
    case JustNow => "just now"
  }

  /**
   * The string `getRelativeTimeString` returns, as written: the guards of
   * `formatDate`, 'just now' for any time not in the past, a day count for up
   * to 30 days back, and the absolute date beyond that.
   */
  function RelativeTimeString(date: DateArg, nowMs: int, parse: DateParser, renderDate: LocaleDate, rtf: RelativeFormat): (s: string)
    ensures Falsy(date) ==> s == "-"
    ensures ResolveDate(date, parse) == InvalidDate ==> s == "Invalid date"
    ensures ResolveDate(date, parse).At? ==>
      var time := ResolveDate(date, parse).time;
      && (time >= nowMs ==> s == "just now")
      && (-30 * MillisPerDay <= time - nowMs < 0 ==> s == rtf(Floor(time - nowMs, MillisPerDay), Day))
      && (time - nowMs < -30 * MillisPerDay ==> s == renderDate(time, Medium))
  {
    RenderRelative(RelativeTime(date, nowMs, parse), parse, renderDate, rtf)
  }

  /**
   * The string `getRelativeTimeString` evidently intends, over the bucketing
   * rounded toward zero: 'just now' under a minute, then minutes, hours and up
   * to 30 days, and the absolute date from 31 days back.
   */
  function RelativeTimeStringIntended(date: DateArg, nowMs: int, parse: DateParser, renderDate: LocaleDate, rtf: RelativeFormat): (s: string)
    ensures Falsy(date) ==> s == "-"
    ensures ResolveDate(date, parse) == InvalidDate ==> s == "Invalid date"
    ensures ResolveDate(date, parse).At? ==>
      var time := ResolveDate(date, parse).time;
      var ago := nowMs - time;
      && (ago < 60000 ==> s == "just now")
      && (60000 <= ago < 3600000 ==> s == rtf(-Floor(ago, 60000), Minute))
      && (3600000 <= ago < MillisPerDay ==> s == rtf(-Floor(ago, 3600000), Hour))
      && (MillisPerDay <= ago < 31 * MillisPerDay ==> s == rtf(-Floor(ago, MillisPerDay), Day))
      && (31 * MillisPerDay <= ago ==> s == renderDate(time, Medium))
  {
    if ResolveDate(date, parse).At? then
      RelativeTimeIntendedUnits(date, nowMs, parse);
      RenderRelative(RelativeTimeIntended(date, nowMs, parse), parse, renderDate, rtf)
    else
      RenderRelative(RelativeTimeIntended(date, nowMs, parse), parse, renderDate, rtf)
  }

  // ---------------------------------------------------------------------------
  // truncateText

  /** The end index `String.prototype.slice(0, end)` uses: a negative end counts from the back. */
  function SliceEnd(length: nat, end: int): (e: nat)
    ensures e <= length
    ensures 0 <= end <= length ==> e == end
    ensures end < 0 ==> e == if length + end < 0 then 0 else length + end
  {
    if end < 0 then (if length + end < 0 then 0 else length + end)
    else if end > length then length
    else end
  }

  /** `truncateText` (its default limit is 50); `text` None is null or undefined. */
  function TruncateText(text: Option<string>, maxLength: int): (r: string)
    ensures text.None? || text.value == "" ==> r == ""
    ensures text.Some? && |text.value| <= maxLength ==> r == text.value
    ensures text.Some? && 0 <= maxLength < |text.value| ==> r == text.value[..maxLength] + "..." && |r| == maxLength + 3
    ensures maxLength >= 0 ==> |r| <= maxLength + 3
  {
    if text.None? || text.value == "" then ""
    else if |text.value| <= maxLength then text.value
    else text.value[..SliceEnd(|text.value|, maxLength)] + "..."
  }

  /** For a non-negative limit, truncating a truncated text changes nothing. */
  lemma TruncateIdempotent(text: Option<string>, maxLength: int)
    requires maxLength >= 0
    ensures TruncateText(Some(TruncateText(text, maxLength)), maxLength) == TruncateText(text, maxLength)
  {
    var r := TruncateText(text, maxLength);
    if text.Some? && maxLength < |text.value| {
      assert r[..maxLength] == text.value[..maxLength];
    }
  }

  /** A negative limit counts from the back of the text, and truncating again keeps shortening it. */
  lemma TruncateNegativeLimit()
    ensures TruncateText(Some("hello"), -2) == "hel..."
    ensures TruncateText(Some("hel..."), -2) == "hel...."
  {
    assert "hello"[..3] == "hel";
    assert "hel..."[..4] == "hel.";
  }
}
