/** The localizer of internal/bot/translate.go: translation lookup and the
    date/time layout used in help and subscription listings. */
module Translate {
  import opened Wrappers
  import opened Strings

  const UALang := "UA"

  /** Translation keys of the bot's messages and buttons. */
  const UserRoleRequestTr := "user_role_request"
  const UserLocalityRequestTr := "user_locality_request"
  const UserLocalityReplyTr := "user_locality_reply"
  const SeekerCategoryRequestTr := "seeker_category_request"
  const SeekerHelpsEmptyTr := "seeker_helps_empty"
  const SeekerSubscriptionProposalTr := "seeker_subscription_proposal"
  const SeekerLookingForVolunteersTr := "seeker_looking_for_volunteers"
  const SeekerSubscriptionCreateSuccessTr := "seeker_subscription_create_success"
  const SeekerSubscriptionAlreadyExistsTr := "seeker_subscription_already_exists"
  const VolunteerEnterDescriptionRequestTr := "volunteer_enter_description_request"
  const VolunteerSelectCategoriesRequestTr := "volunteer_select_categories_request"
  const BtnOptionNextTr := "btn_option_next"
  const BtnOptionSubscribeTr := "btn_option_subscribe"
  const ErrorChooseOptionTr := "error_choose_option"
  const ErrorPleaseTryAgainTr := "error_please_try_again"
  const Error500Tr := "error_500"
  const ErrorHelpsLimitExceededTr := "error_helps_limit_exceeded"
  const ErrorSubscriptionsLimitExceededTr := "error_subscriptions_limit_exceeded"

  const WeekDaysKey := "week_days"
  const MonthKey := "months"

  /** The two tables NewLocalizer decodes from the embedded JSON files:
      text key -> language -> string, and time key -> language -> names. */
  datatype Localizer = Localizer(
    textKeys: map<string, map<string, string>>,
    timeKeys: map<string, map<string, seq<string>>>)

  /** The calendar fields that `time.Time` exposes (`Weekday`, `Day`, `Month`,
      and the hour and minute printed by the layout "15:04"). Sunday is weekday 0. */
  type WeekdayNum = w: int | 0 <= w < 7
  type DayNum = d: int | 1 <= d <= 31 witness 1
  type MonthNum = m: int | 1 <= m <= 12 witness 1
  type HourNum = h: int | 0 <= h < 24
  type MinuteNum = m: int | 0 <= m < 60

  datatype Time = Time(weekday: WeekdayNum, day: DayNum, month: MonthNum, hour: HourNum, minute: MinuteNum)

  /** `Translate`: a missing key or a missing language yields Go's zero string. */
  function Translate(l: Localizer, key: string, lang: string): (r: string)
    ensures key in l.textKeys && lang in l.textKeys[key] ==> r == l.textKeys[key][lang]
    ensures key !in l.textKeys || lang !in l.textKeys[key] ==> r == ""
  {
    if key in l.textKeys && lang in l.textKeys[key] then l.textKeys[key][lang] else ""
  }

  /** The name table of one language, or None where Go would index a nil map or slice. */
  function Table(l: Localizer, key: string, lang: string): Option<seq<string>> {
    if key in l.timeKeys && lang in l.timeKeys[key] then Some(l.timeKeys[key][lang]) else None
  }

  /** `Month`: entry `month - 1` of the language's month table. None stands for the
      index-out-of-range panic of a missing table or a month past its end. */
  function Month(l: Localizer, month: int, lang: string): (r: Option<string>)
    ensures r.Some? <==> Table(l, MonthKey, lang).Some? && 1 <= month <= |Table(l, MonthKey, lang).value|
    ensures r.Some? ==> r.value == Table(l, MonthKey, lang).value[month - 1]
  {
    match Table(l, MonthKey, lang)
    case Some(names) => if 1 <= month <= |names| then Some(names[month - 1]) else None
    case None => None
  }

  /** `WeekDay`: entry `weekday` of the language's weekday table (Sunday = 0). */
  function WeekDay(l: Localizer, weekday: int, lang: string): (r: Option<string>)
    ensures r.Some? <==> Table(l, WeekDaysKey, lang).Some? && 0 <= weekday < |Table(l, WeekDaysKey, lang).value|
    ensures r.Some? ==> r.value == Table(l, WeekDaysKey, lang).value[weekday]
  {
    match Table(l, WeekDaysKey, lang)
    case Some(names) => if 0 <= weekday < |names| then Some(names[weekday]) else None
    case None => None
  }

  /** `FormatTime`: the layout "15:04", a zero-padded 24-hour clock. */
  function FormatTime(t: Time): (r: string)
    ensures |r| == 5 && r[2] == ':'
    ensures AllDigits(r[..2]) && AllDigits(r[3..])
  {
    TwoDigits(t.hour) + ":" + TwoDigits(t.minute)
  }

  /** The clock string reads back as the hour and the minute of the time. */
  lemma FormatTimeRoundTrip(t: Time)
    ensures DecimalValue(FormatTime(t)[..2]) == t.hour
    ensures DecimalValue(FormatTime(t)[3..]) == t.minute
  {
    var r := FormatTime(t);
    assert r[..2] == TwoDigits(t.hour);
    assert r[3..] == TwoDigits(t.minute);
    TwoDigitsRoundTrip(t.hour);
    TwoDigitsRoundTrip(t.minute);
  }

  /** `FormatDate`: weekday name, the day in decimal, and the month name, separated by spaces. */
  function FormatDate(l: Localizer, t: Time, lang: string): (r: Option<string>)
    ensures r.Some? <==> WeekDay(l, t.weekday, lang).Some? && Month(l, t.month, lang).Some?
    ensures r.Some? ==> r.value == WeekDay(l, t.weekday, lang).value + " " + NatToDecimal(t.day) + " " + Month(l, t.month, lang).value
  {
    match (WeekDay(l, t.weekday, lang), Month(l, t.month, lang))
    case (Some(w), Some(m)) => Some(w + " " + NatToDecimal(t.day) + " " + m)
    case _ => None
  }

  /** `FormatDateTime`: the date, a space, and the clock. */
  function FormatDateTime(l: Localizer, t: Time, lang: string): (r: Option<string>)
    ensures r.Some? <==> FormatDate(l, t, lang).Some?
    ensures r.Some? ==> r.value == FormatDate(l, t, lang).value + " " + FormatTime(t)
  {
    match FormatDate(l, t, lang)
    case Some(d) => Some(d + " " + FormatTime(t))
    case None => None
  }

  /** With full tables for the language, every field of the time is recoverable from the
      formatted string: it ends with the clock, and the day's digits stand between the
      weekday name and the month name. */
  lemma FormatDateTimeLayout(l: Localizer, t: Time, lang: string)
    requires Table(l, WeekDaysKey, lang).Some? && |Table(l, WeekDaysKey, lang).value| == 7
    requires Table(l, MonthKey, lang).Some? && |Table(l, MonthKey, lang).value| == 12
    ensures FormatDateTime(l, t, lang).Some?
    ensures var s := FormatDateTime(l, t, lang).value;
            var w := Table(l, WeekDaysKey, lang).value[t.weekday];
            var m := Table(l, MonthKey, lang).value[t.month - 1];
            var day := NatToDecimal(t.day);
            && s == w + " " + day + " " + m + " " + FormatTime(t)
            && |s| >= 5 && s[|s| - 5..] == FormatTime(t)
            && s[|w| + 1..|w| + 1 + |day|] == day
            && DecimalValue(s[|w| + 1..|w| + 1 + |day|]) == t.day
  {
    var s := FormatDateTime(l, t, lang).value;
    var w := Table(l, WeekDaysKey, lang).value[t.weekday];
    var m := Table(l, MonthKey, lang).value[t.month - 1];
    var day := NatToDecimal(t.day);
    assert s == w + " " + day + " " + m + " " + FormatTime(t);
    assert s == (w + " ") + (day + (" " + m + " " + FormatTime(t)));
    assert s[|w| + 1..|w| + 1 + |day|] == day;
    DecimalRoundTrip(t.day);
  }
}
