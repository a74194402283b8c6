/** The LinkedIn token-status notice: whole days until the token expires,
    rounded toward minus infinity, classified as expired, expiring soon or fine.
    The clock is a parameter (`nowMs`, milliseconds since the epoch). */
module TokenStatus {
  import opened Values
  import Decimal

  const SecondsPerDay: int := 86400

  /** Days up to and including this many still only warn. */
  const WarningDays: int := 7

  datatype Status = Success | Warning | Error

  /** Error outranks warning outranks success. */
  function Severity(s: Status): nat {
    match s
    case Success => 0
    case Warning => 1
    case Error => 2
  }

  /** The status line and the notice status. */
  datatype Reading = Reading(text: string, status: Status)

  /** What the component renders: the notice, and whether it carries the
      "please reconnect" paragraph. */
  datatype Notice = Notice(status: Status, text: string, reconnect: bool)

  const ExpiredText: string := "Token expired"
  const TodayText: string := "Token expires today"
  const TomorrowText: string := "Token expires tomorrow"

  /** The translatable template for two or more days. */
  const DaysTemplate: string := "Token expires in %d days"
  const DaysPrefix: string := "Token expires in "
  const DaysSuffix: string := " days"

  /** `Math.floor(Date.now() / 1000)`. */
  function NowSeconds(nowMs: int): (t: int)
    ensures t * 1000 <= nowMs < t * 1000 + 1000
  {
    nowMs / 1000
  }

  /** `Math.floor((expires - now) / 86400)`: the largest `d` with
      `d` whole days fitting in the time left; negative once expired. */
  function DaysRemaining(expires: int, now: int): (d: int)
    ensures d * SecondsPerDay <= expires - now < d * SecondsPerDay + SecondsPerDay
  {
    (expires - now) / SecondsPerDay
  }

  /** The status for a day count. */
  function StatusFor(days: int): (st: Status)
    ensures st == Error <==> days < 0
    ensures st == Warning <==> 0 <= days <= WarningDays
    ensures st == Success <==> days > WarningDays
  {
    if days < 0 then Error
    else if days == 0 then Warning
    else if days == 1 then Warning
    else if days <= WarningDays then Warning
    else Success
  }

  /** The status text as the component sets it: for two or more days the
      template itself, since the day count goes to the setter as a second,
      ignored argument. */
  function TextAsWritten(days: int): string {
    if days < 0 then ExpiredText
    else if days == 0 then TodayText
    else if days == 1 then TomorrowText
    else DaysTemplate
  }

  /** The status text with the day count put in place of `%d`; from two days
      on it differs from the three fixed texts and from the raw template. */
  function Text(days: int): (t: string)
    ensures days >= 2 ==> t != TodayText && t != TomorrowText && t != ExpiredText && t != DaysTemplate
  {
    if days < 0 then ExpiredText
    else if days == 0 then TodayText
    else if days == 1 then TomorrowText
    else
      var t := DaysPrefix + Decimal.NatToString(days) + DaysSuffix;
      assert t[|DaysPrefix|] == Decimal.NatToString(days)[0];
      assert DaysTemplate[|DaysPrefix|] == '%';
      t
  }

  /** `calculateStatus` as the component has it: the status by how `expires`
      compares with the current second, the three fixed texts for their time
      windows, and the raw template from two days on. */
  function CalculateStatusAsWritten(expires: int, nowMs: int): (r: Reading)
    ensures var now := NowSeconds(nowMs);
      && (r.status == Error <==> expires < now)
      && (r.status == Warning <==> now <= expires < now + (WarningDays + 1) * SecondsPerDay)
      && (r.status == Success <==> expires >= now + (WarningDays + 1) * SecondsPerDay)
    ensures var now := NowSeconds(nowMs);
      && (r.text == ExpiredText <==> expires < now)
      && (r.text == TodayText <==> now <= expires < now + SecondsPerDay)
      && (r.text == TomorrowText <==> now + SecondsPerDay <= expires < now + 2 * SecondsPerDay)
      && (r.text == DaysTemplate <==> expires >= now + 2 * SecondsPerDay)
  {
    var d := DaysRemaining(expires, NowSeconds(nowMs));
    Reading(TextAsWritten(d), StatusFor(d))
  }

  /** `calculateStatus` with the day count substituted. Its status depends on
      how `expires` compares with the current second: expired strictly before
      it, warning within the next eight days, success from then on. */
  function CalculateStatus(expires: int, nowMs: int): (r: Reading)
    ensures var now := NowSeconds(nowMs);
      && (r.status == Error <==> expires < now)
      && (r.status == Warning <==> now <= expires < now + (WarningDays + 1) * SecondsPerDay)
      && (r.status == Success <==> expires >= now + (WarningDays + 1) * SecondsPerDay)
    ensures var now := NowSeconds(nowMs);
      && (r.text == TodayText <==> now <= expires < now + SecondsPerDay)
      && (r.text == TomorrowText <==> now + SecondsPerDay <= expires < now + 2 * SecondsPerDay)
      && (r.text == ExpiredText <==> expires < now)
  {
    var d := DaysRemaining(expires, NowSeconds(nowMs));
    Reading(Text(d), StatusFor(d))
  }

  /** The component as written and the corrected reading agree on the status
      always, and on the text exactly when fewer than two days remain. */
  lemma AsWrittenDiffersOnlyInDaysText(expires: int, nowMs: int)
    ensures CalculateStatusAsWritten(expires, nowMs).status == CalculateStatus(expires, nowMs).status
    ensures CalculateStatusAsWritten(expires, nowMs).text == CalculateStatus(expires, nowMs).text
            <==> DaysRemaining(expires, NowSeconds(nowMs)) < 2
  {
  }

  /** JavaScript falsiness of the timestamp prop: absent or zero. */
  predicate FalsyTimestamp(tokenExpires: Option<int>) {
    tokenExpires.None? || tokenExpires.value == 0
  }

  /** The settled render of the component: nothing without a timestamp;
      otherwise the notice with the status and text `calculateStatus` set, and
      the reconnect paragraph exactly while fewer than eight days remain. */
  function Render(tokenExpires: Option<int>, nowMs: int): (r: Option<Notice>)
    ensures r.None? <==> FalsyTimestamp(tokenExpires)
    ensures r.Some? ==> r.value.status == CalculateStatusAsWritten(tokenExpires.value, nowMs).status
    ensures r.Some? ==> r.value.text == CalculateStatusAsWritten(tokenExpires.value, nowMs).text
    ensures r.Some? ==> (r.value.reconnect <==> r.value.status != Success)
    ensures r.Some? ==> (r.value.reconnect <==> tokenExpires.value < NowSeconds(nowMs) + (WarningDays + 1) * SecondsPerDay)
  {
    if FalsyTimestamp(tokenExpires) then None
    else
      var reading := CalculateStatusAsWritten(tokenExpires.value, nowMs);
      Some(Notice(reading.status, reading.text, reading.status != Success))
  }

  /** The render with the day count substituted: the same notice as `Render`
      except that from two days on the text carries the count. */
  function RenderCorrected(tokenExpires: Option<int>, nowMs: int): (r: Option<Notice>)
    ensures r.None? <==> FalsyTimestamp(tokenExpires)
    ensures r.Some? ==> r.value.text == CalculateStatus(tokenExpires.value, nowMs).text
    ensures r.Some? ==> (r.value.reconnect <==> tokenExpires.value < NowSeconds(nowMs) + (WarningDays + 1) * SecondsPerDay)
    ensures r.Some? ==> Render(tokenExpires, nowMs) == Some(r.value.(text := Render(tokenExpires, nowMs).value.text))
  {
    if FalsyTimestamp(tokenExpires) then None
    else
      var reading := CalculateStatus(tokenExpires.value, nowMs);
      Some(Notice(reading.status, reading.text, reading.status != Success))
  }

  /** A token one second past expiry is a day overdue, not zero days. */
  lemma OneSecondPastExpiry(nowMs: int)
    ensures var now := NowSeconds(nowMs);
      DaysRemaining(now - 1, now) == -1 && CalculateStatus(now - 1, nowMs).status == Error
  {
  }

  /** A later expiry never gives a more severe status. */
  lemma LaterExpiryNotWorse(e1: int, e2: int, nowMs: int)
    requires e1 <= e2
    ensures Severity(CalculateStatus(e2, nowMs).status) <= Severity(CalculateStatus(e1, nowMs).status)
  {
  }

  /** As the clock advances toward a fixed expiry the status only escalates;
      so the hourly refresh never downgrades a warning to success. */
  lemma LaterClockNotBetter(expires: int, ms1: int, ms2: int)
    requires ms1 <= ms2
    ensures Severity(CalculateStatus(expires, ms1).status) <= Severity(CalculateStatus(expires, ms2).status)
  {
  }

  /** As written, every count of two or more days shows the same text, with the
      `%d` still in it: five and six days read alike. */
  lemma TemplateNeverSubstituted(nowMs: int)
    ensures var now := NowSeconds(nowMs);
      && CalculateStatusAsWritten(now + 5 * SecondsPerDay, nowMs).text
         == CalculateStatusAsWritten(now + 6 * SecondsPerDay, nowMs).text
      && '%' in CalculateStatusAsWritten(now + 5 * SecondsPerDay, nowMs).text
  {
  }

  /** The day-count text splits back into prefix, digits and suffix, and holds no `%`. */
  lemma FramedDigits(digits: string)
    requires Decimal.AllDigits(digits)
    ensures var t := DaysPrefix + digits + DaysSuffix;
      && |t| == |DaysPrefix| + |digits| + |DaysSuffix|
      && t[..|DaysPrefix|] == DaysPrefix
      && t[|DaysPrefix|..|t| - |DaysSuffix|] == digits
      && t[|t| - |DaysSuffix|..] == DaysSuffix
      && '%' !in t
  {
  }

  /** With the substitution, the text for two or more days is the prefix, the
      day count without a leading zero, and the suffix; the count reads back
      exactly, and no `%` is left. */
  lemma DayCountRecoverable(expires: int, nowMs: int)
    requires DaysRemaining(expires, NowSeconds(nowMs)) >= 2
    ensures var d := DaysRemaining(expires, NowSeconds(nowMs));
      var t := CalculateStatus(expires, nowMs).text;
      && |t| > |DaysPrefix| + |DaysSuffix|
      && t[..|DaysPrefix|] == DaysPrefix
      && t[|t| - |DaysSuffix|..] == DaysSuffix
      && Decimal.AllDigits(t[|DaysPrefix|..|t| - |DaysSuffix|])
      && t[|DaysPrefix|] != '0'
      && Decimal.StringToNat(t[|DaysPrefix|..|t| - |DaysSuffix|]) == d
      && '%' !in t
  {
    var d := DaysRemaining(expires, NowSeconds(nowMs));
    var digits := Decimal.NatToString(d);
    assert CalculateStatus(expires, nowMs).text == DaysPrefix + digits + DaysSuffix;
    FramedDigits(digits);
    Decimal.StringToNatInverse(d);
  }
}
