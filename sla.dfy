/**
 * The SLA and timing properties of `Ticket` (tickets/models.py): deadline,
 * overdue classification, time to deadline, reaction time and working time.
 * Times are integer seconds and the current time `now` is a parameter.
 */
module Sla {

  import opened Wrappers
  import opened Entities

  const SecondsPerHour: nat := 3600

  /** `created_at + timedelta(hours=category.sla_hours)`. */
  function Deadline(t: Ticket): int
  {
    t.createdAt + t.category.slaHours * SecondsPerHour
  }

  /** `resolved_at or closed_at`: when the ticket was finished, preferring the resolution time. */
  function EndTime(t: Ticket): (r: Option<int>)
    ensures r.None? <==> t.resolvedAt.None? && t.closedAt.None?
    ensures t.resolvedAt.Some? ==> r == t.resolvedAt
  {
    if t.resolvedAt.Some? then t.resolvedAt else t.closedAt
  }

  /**
   * `Ticket.is_overdue`: a final ticket that has an end time is judged by that end time,
   * every other ticket by the current time.
   */
  function IsOverdue(t: Ticket, now: int): (r: bool)
    ensures t.status.isFinal && EndTime(t).Some? ==> (r <==> EndTime(t).value > Deadline(t))
    ensures !(t.status.isFinal && EndTime(t).Some?) ==> (r <==> now > Deadline(t))
  {
    var deadline := Deadline(t);
    if t.status.isFinal && (t.resolvedAt.Some? || t.closedAt.Some?) then
      var endTime := if t.resolvedAt.Some? then t.resolvedAt.value else t.closedAt.value;
      endTime > deadline
    else
      now > deadline
  }

  /** `Ticket.time_to_deadline`: None for a final status, otherwise the seconds left (negative once late). */
  function TimeToDeadline(t: Ticket, now: int): (r: Option<int>)
    ensures r.None? <==> t.status.isFinal
    ensures r.Some? ==> now + r.value == Deadline(t)
  {
    if t.status.isFinal then None else Some(Deadline(t) - now)
  }

  /** `Ticket.reaction_time`: from creation to being taken, None if never taken. */
  function ReactionTime(t: Ticket): (r: Option<int>)
    ensures r.None? <==> t.takenAt.None?
    ensures r.Some? ==> t.createdAt + r.value == t.takenAt.value
  {
    if t.takenAt.None? then None else Some(t.takenAt.value - t.createdAt)
  }

  /**
   * `Ticket.working_time`: from being taken to the end time (resolution, else closing,
   * else now), None if never taken.
   */
  function WorkingTime(t: Ticket, now: int): (r: Option<int>)
    ensures r.None? <==> t.takenAt.None?
    ensures r.Some? ==> t.takenAt.value + r.value == EndTime(t).GetOr(now)
  {
    if t.takenAt.None? then None
    else
      var endTime := if t.resolvedAt.Some? then t.resolvedAt.value
                     else if t.closedAt.Some? then t.closedAt.value
                     else now;
      Some(endTime - t.takenAt.value)
  }

  /** For a ticket that is not final, overdue means exactly that the time to the deadline is negative. */
  lemma OpenOverdueIffNoTimeLeft(t: Ticket, now: int)
    requires !t.status.isFinal
    ensures IsOverdue(t, now) <==> TimeToDeadline(t, now).value < 0
  {
  }

  /** A final ticket with an end time is overdue or not whatever the current time. */
  lemma FinishedVerdictIsFixed(t: Ticket, now1: int, now2: int)
    requires t.status.isFinal && EndTime(t).Some?
    ensures IsOverdue(t, now1) == IsOverdue(t, now2)
  {
  }

  /** Once overdue, a ticket stays overdue as time passes. */
  lemma OverdueIsMonotone(t: Ticket, now1: int, now2: int)
    requires now1 <= now2 && IsOverdue(t, now1)
    ensures IsOverdue(t, now2)
  {
  }

  /** Reaction time and working time add up to the whole time from creation to the end point. */
  lemma ReactionPlusWorking(t: Ticket, now: int)
    requires t.takenAt.Some?
    ensures ReactionTime(t).value + WorkingTime(t, now).value == EndTime(t).GetOr(now) - t.createdAt
  {
  }
}
