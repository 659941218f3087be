/**
 * The read-only display columns of tickets/admin.py: the `*_short` truncations,
 * `TicketAdmin.working_time_display` and `TicketAdmin.sla_status`.
 */
module AdminDisplay {

  import opened Wrappers
  import opened Text
  import opened Entities
  import opened Sla

  const Ellipsis: string := "..."

  /** `s[:limit] + '...' if len(s) > limit else s`. */
  function Shorten(s: string, limit: nat): (r: string)
    ensures |s| <= limit ==> r == s
    ensures |s| > limit ==> |r| == limit + 3 && r[..limit] == s[..limit] && r[limit..] == Ellipsis
  {
    if |s| > limit then s[..limit] + Ellipsis else s
  }

  /** `TicketAdmin.title_short`: titles over 50 characters are cut to 50 and marked with "...". */
  function TitleShort(t: Ticket): (r: string)
    ensures |r| <= 53
    ensures |t.title| <= 50 ==> r == t.title
    ensures |t.title| > 50 ==> |r| == 53 && r[..50] == t.title[..50] && r[50..] == Ellipsis
  {
    Shorten(t.title, 50)
  }

  /** `TicketCommentAdmin.content_short`: comment contents over 100 characters are cut to 100. */
  function ContentShort(c: Comment): (r: string)
    ensures |r| <= 103
    ensures |c.content| <= 100 ==> r == c.content
    ensures |c.content| > 100 ==> |r| == 103 && r[..100] == c.content[..100] && r[100..] == Ellipsis
  {
    Shorten(c.content, 100)
  }

  /** `TicketAuditAdmin.comment_short`: audit comments over 50 characters are cut to 50. */
  function AuditCommentShort(a: Audit): (r: string)
    ensures |r| <= 53
    ensures |a.comment| <= 50 ==> r == a.comment
    ensures |a.comment| > 50 ==> |r| == 53 && r[..50] == a.comment[..50] && r[50..] == Ellipsis
  {
    Shorten(a.comment, 50)
  }

  /** `TelegramMessageAdmin.text_short`: message texts over 80 characters are cut to 80. */
  function MessageTextShort(text: string): (r: string)
    ensures |r| <= 83
    ensures |text| <= 80 ==> r == text
    ensures |text| > 80 ==> |r| == 83 && r[..80] == text[..80] && r[80..] == Ellipsis
  {
    Shorten(text, 80)
  }

  /** A working time shown as "<hours>ч <minutes>м", or "-". */
  datatype Clock = HoursMinutes(hours: int, minutes: int) | NoClock

  /**
   * `working_time_display`: "-" when there is no working time or it is zero (a zero timedelta
   * is falsy); otherwise whole hours and the minutes left over, so that the minutes are below 60
   * and hours and minutes together account for all but under a minute of the working time.
   */
  function WorkingTimeDisplay(t: Ticket, now: int): (r: Clock)
    ensures r.NoClock? <==> WorkingTime(t, now).None? || WorkingTime(t, now).value == 0
    ensures r.HoursMinutes? ==>
      var s := WorkingTime(t, now).value;
      && 0 <= r.minutes < 60
      && 3600 * r.hours + 60 * r.minutes <= s < 3600 * r.hours + 60 * r.minutes + 60
  {
    match WorkingTime(t, now)
    case None => NoClock
    case Some(total) =>
      if total == 0 then NoClock
      else HoursMinutes(total / 3600, (total % 3600) / 60)
  }

  /** The SLA column: overdue, completed, whole hours left, or "-". */
  datatype SlaBadge = Overdue | Completed | HoursLeft(hours: int) | NoBadge

  /** Python's `int(x)` on a quotient: truncation toward zero. */
  function TruncDiv(a: int, b: nat): int
    requires b > 0
  {
    if a >= 0 then a / b else -((-a) / b)
  }

  /**
   * `TicketAdmin.sla_status`: overdue whenever `is_overdue` holds, completed for a final ticket that
   * is not overdue, otherwise the whole hours left before the deadline; "-" when exactly no time is left.
   */
  function SlaStatus(t: Ticket, now: int): (r: SlaBadge)
    ensures r.Overdue? <==> IsOverdue(t, now)
    ensures r.Completed? <==> !IsOverdue(t, now) && t.status.isFinal
    ensures r.HoursLeft? ==>
      var left := Deadline(t) - now;
      && !t.status.isFinal
      && 0 <= r.hours
      && 3600 * r.hours <= left < 3600 * (r.hours + 1)
    ensures r.NoBadge? <==> !t.status.isFinal && now == Deadline(t)
  {
    if IsOverdue(t, now) then Overdue
    else if t.status.isFinal then Completed
    else
      var timeLeft := TimeToDeadline(t, now);
      if timeLeft.Some? && timeLeft.value != 0 then HoursLeft(TruncDiv(timeLeft.value, 3600))
      else NoBadge
  }
}
