/**
 * The ticket status state machine of tickets/views.py as pure transitions on one
 * ticket row: take, resolve, close, set-waiting and return-to-work, plus the
 * assignee resolution and the change audits of ticket create/edit. A transition
 * either is rejected (the handler flashes a message and changes nothing) or moves
 * the ticket and yields the one audit row the handler appends.
 */
module Lifecycle {

  import opened Wrappers
  import opened Text
  import opened Entities
  import opened Statuses

  /** Why a handler stopped without saving; `AlreadyWaiting` is flashed as info, the others as errors. */
  datatype Refusal =
    | AssignedToOther
    | NoWorkingStatus
    | NoResolvedStatus
    | NoFinalStatus
    | NotWorking
    | NoWaitingStatus
    | AlreadyWaiting
    | NotWaiting

  datatype Step = Rejected(why: Refusal) | Moved(ticket: Ticket, audit: Audit)

  const TakenComment: string := "Взято в работу"
  const ResolvedComment: string := "Решено"
  const ResolvedPrefix: string := "Решено: "
  const ClosedComment: string := "Обращение подтверждено заявителем (Решено)"
  const WaitingComment: string := "Переведено в статус Ожидает ответа"
  const ReturnedComment: string := "Возвращено в работу из статуса Ожидает ответа"
  const StatusEditedComment: string := "Статус изменен"
  const AssigneeEditedComment: string := "Исполнитель изменен"
  const Unassigned: string := "Не назначен"

  /** The ticket is assigned, and not to `user` (users compare by id). */
  predicate AssignedToSomeoneElse(t: Ticket, user: User)
  {
    t.assignedTo.Some? && t.assignedTo.value.id != user.id
  }

  /**
   * `take_ticket`: refused when the ticket belongs to another user or no working status exists;
   * otherwise the requester becomes the assignee, the status becomes the first working status,
   * `taken_at` becomes now, nothing else changes, and one `taken` audit is written.
   */
  function Take(t: Ticket, statuses: seq<TicketStatus>, user: User, now: int): (r: Step)
    ensures AssignedToSomeoneElse(t, user) ==> r == Rejected(AssignedToOther)
    ensures !AssignedToSomeoneElse(t, user) && First(statuses, Working).None? ==> r == Rejected(NoWorkingStatus)
    ensures r.Moved? <==> !AssignedToSomeoneElse(t, user) && First(statuses, Working).Some?
    ensures r.Moved? ==>
      && Some(r.ticket.status) == First(statuses, Working)
      && r.ticket == t.(assignedTo := Some(user), status := r.ticket.status, takenAt := Some(now))
      && r.audit == Audit(t.id, Taken, user.id, "", "", TakenComment)
  {
    if AssignedToSomeoneElse(t, user) then Rejected(AssignedToOther)
    else
      match First(statuses, Working)
      case None => Rejected(NoWorkingStatus)
      case Some(working) =>
        Moved(t.(assignedTo := Some(user), status := working, takenAt := Some(now)),
              Audit(t.id, Taken, user.id, "", "", TakenComment))
  }

  /** The audit comment of `resolve_ticket`: the first 50 characters of the resolution, if any. */
  function ResolveComment(resolution: string): (r: string)
    ensures resolution == "" ==> r == ResolvedComment
    ensures resolution != "" ==> r == ResolvedPrefix + Prefix(resolution, 50) + "..."
  {
    if resolution != "" then ResolvedPrefix + Prefix(resolution, 50) + "..." else ResolvedComment
  }

  /**
   * `resolve_ticket` (POST): refused without a status named "Решено"; otherwise the ticket takes that
   * status, the resolution texts, and `resolved_at` = now (overwriting an earlier one), from any status.
   */
  function Resolve(t: Ticket, statuses: seq<TicketStatus>, user: User, now: int,
                   resolution: string, notes: string): (r: Step)
    ensures r.Rejected? <==> First(statuses, Named(Solved)).None?
    ensures r.Rejected? ==> r.why == NoResolvedStatus
    ensures r.Moved? ==>
      && Some(r.ticket.status) == First(statuses, Named(Solved))
      && r.ticket == t.(status := r.ticket.status, resolution := resolution,
                        resolutionNotes := notes, resolvedAt := Some(now))
      && r.audit == Audit(t.id, Resolved, user.id, "", "", ResolveComment(resolution))
  {
    match First(statuses, Named(Solved))
    case None => Rejected(NoResolvedStatus)
    case Some(solved) =>
      Moved(t.(status := solved, resolution := resolution, resolutionNotes := notes, resolvedAt := Some(now)),
            Audit(t.id, Resolved, user.id, "", "", ResolveComment(resolution)))
  }

  /** The status `close_ticket` moves to: the one named "Решено", else the first final one. */
  function CloseTarget(statuses: seq<TicketStatus>): (r: Option<TicketStatus>)
    ensures r.Some? ==> r.value in statuses
    ensures First(statuses, Named(Solved)).Some? ==> r == First(statuses, Named(Solved))
    ensures First(statuses, Named(Solved)).None? ==> r == First(statuses, Final)
    ensures r.None? <==> forall s :: s in statuses ==> s.name != Solved && !s.isFinal
  {
    var named := First(statuses, Named(Solved));
    if named.Some? then named else First(statuses, Final)
  }

  /**
   * `close_ticket`: refused when neither a "Решено" nor any final status exists; otherwise the
   * ticket takes that status and gets `resolved_at` = now only if it had none, so an existing
   * resolution time is kept.
   */
  function Close(t: Ticket, statuses: seq<TicketStatus>, user: User, now: int): (r: Step)
    ensures r.Rejected? <==> CloseTarget(statuses).None?
    ensures r.Rejected? ==> r.why == NoFinalStatus
    ensures r.Moved? ==>
      && Some(r.ticket.status) == CloseTarget(statuses)
      && r.ticket == t.(status := r.ticket.status, resolvedAt := r.ticket.resolvedAt)
      && r.ticket.resolvedAt == (if t.resolvedAt.Some? then t.resolvedAt else Some(now))
      && r.audit == Audit(t.id, Resolved, user.id, "", "", ClosedComment)
  {
    match CloseTarget(statuses)
    case None => Rejected(NoFinalStatus)
    case Some(target) =>
      var closed := t.(status := target);
      var stamped := if closed.resolvedAt.None? then closed.(resolvedAt := Some(now)) else closed;
      Moved(stamped, Audit(t.id, Resolved, user.id, "", "", ClosedComment))
  }

  /**
   * `set_waiting`: refused unless the current status is a working one, refused when no status is
   * named "Ожидает ответа", a no-op when already in it; otherwise only the status changes and the
   * audit records the old and the new status names.
   */
  function SetWaiting(t: Ticket, statuses: seq<TicketStatus>, user: User): (r: Step)
    ensures !t.status.isWorking ==> r == Rejected(NotWorking)
    ensures t.status.isWorking && First(statuses, Named(Waiting)).None? ==> r == Rejected(NoWaitingStatus)
    ensures (t.status.isWorking && First(statuses, Named(Waiting)).Some?
             && First(statuses, Named(Waiting)).value.id == t.status.id) ==> r == Rejected(AlreadyWaiting)
    ensures r.Moved? <==>
      t.status.isWorking && First(statuses, Named(Waiting)).Some? && First(statuses, Named(Waiting)).value.id != t.status.id
    ensures r.Moved? ==>
      && t.status.isWorking
      && Some(r.ticket.status) == First(statuses, Named(Waiting))
      && r.ticket.status.id != t.status.id
      && r.ticket == t.(status := r.ticket.status)
      && r.audit == Audit(t.id, StatusChanged, user.id, t.status.name, Waiting, WaitingComment)
  {
    if !t.status.isWorking then Rejected(NotWorking)
    else
      match First(statuses, Named(Waiting))
      case None => Rejected(NoWaitingStatus)
      case Some(waiting) =>
        if t.status.id == waiting.id then Rejected(AlreadyWaiting)
        else Moved(t.(status := waiting),
                   Audit(t.id, StatusChanged, user.id, t.status.name, waiting.name, WaitingComment))
  }

  /**
   * `return_to_work`: refused unless the current status is "Ожидает ответа", refused when no other
   * working status exists; otherwise only the status changes, to the first working status not named
   * "Ожидает ответа", so the assignee and `taken_at` stay as they were.
   */
  function ReturnToWork(t: Ticket, statuses: seq<TicketStatus>, user: User): (r: Step)
    ensures t.status.name != Waiting ==> r == Rejected(NotWaiting)
    ensures t.status.name == Waiting && First(statuses, WorkingExcept(Waiting)).None? ==> r == Rejected(NoWorkingStatus)
    ensures r.Moved? <==> t.status.name == Waiting && First(statuses, WorkingExcept(Waiting)).Some?
    ensures r.Moved? ==>
      && t.status.name == Waiting
      && Some(r.ticket.status) == First(statuses, WorkingExcept(Waiting))
      && r.ticket.status.isWorking && r.ticket.status.name != Waiting
      && r.ticket == t.(status := r.ticket.status)
      && r.ticket.assignedTo == t.assignedTo && r.ticket.takenAt == t.takenAt
      && r.audit == Audit(t.id, StatusChanged, user.id, Waiting, r.ticket.status.name, ReturnedComment)
  {
    if t.status.name != Waiting then Rejected(NotWaiting)
    else
      match First(statuses, WorkingExcept(Waiting))
      case None => Rejected(NoWorkingStatus)
      case Some(working) =>
        Moved(t.(status := working),
              Audit(t.id, StatusChanged, user.id, t.status.name, working.name, ReturnedComment))
  }

  // ---------------------------------------------------------------------------
  // Partner properties of the transitions

  /** Every transition that moves a ticket leaves it in a status of the table. */
  lemma MovesStayInTable(t: Ticket, statuses: seq<TicketStatus>, user: User, now: int, resolution: string, notes: string)
    ensures Take(t, statuses, user, now).Moved? ==> Take(t, statuses, user, now).ticket.status in statuses
    ensures Resolve(t, statuses, user, now, resolution, notes).Moved? ==>
      Resolve(t, statuses, user, now, resolution, notes).ticket.status in statuses
    ensures Close(t, statuses, user, now).Moved? ==> Close(t, statuses, user, now).ticket.status in statuses
    ensures SetWaiting(t, statuses, user).Moved? ==> SetWaiting(t, statuses, user).ticket.status in statuses
    ensures ReturnToWork(t, statuses, user).Moved? ==> ReturnToWork(t, statuses, user).ticket.status in statuses
  {
  }

  /** The requester may take again a ticket they hold; anyone else is refused, whatever its status. */
  lemma RetakeOnlyBySameUser(t: Ticket, statuses: seq<TicketStatus>, user: User, other: User, now: int, later: int)
    requires Take(t, statuses, user, now).Moved?
    requires other.id != user.id
    ensures var t1 := Take(t, statuses, user, now).ticket;
      && Take(t1, statuses, user, later) == Moved(t1.(takenAt := Some(later)), Take(t, statuses, user, now).audit)
      && Take(t1, statuses, other, later) == Rejected(AssignedToOther)
  {
  }

  /** Closing twice is closing once: the second close keeps the status and the first `resolved_at`. */
  lemma CloseIdempotent(t: Ticket, statuses: seq<TicketStatus>, user: User, now: int, later: int)
    requires Close(t, statuses, user, now).Moved?
    ensures var t1 := Close(t, statuses, user, now).ticket;
      Close(t1, statuses, user, later).Moved? && Close(t1, statuses, user, later).ticket == t1
  {
  }

  /** Unlike closing, resolving again moves `resolved_at` to the new time. */
  lemma ResolveRestamps(t: Ticket, statuses: seq<TicketStatus>, user: User, now: int, later: int)
    requires Resolve(t, statuses, user, now, "", "").Moved?
    ensures var t1 := Resolve(t, statuses, user, now, "", "").ticket;
      Resolve(t1, statuses, user, later, "", "").ticket.resolvedAt == Some(later)
  {
  }

  /**
   * With the seeded statuses, a ticket taken from any state can be put on hold and returned to
   * work, and the round trip gives back exactly the taken ticket.
   */
  lemma SeedTakeWaitReturn(t: Ticket, user: User, now: int)
    requires !AssignedToSomeoneElse(t, user)
    ensures Take(t, Seed, user, now).Moved?
    ensures var taken := Take(t, Seed, user, now).ticket;
      && taken.status.name == InWork
      && SetWaiting(taken, Seed, user).Moved?
      && SetWaiting(taken, Seed, user).ticket.status.name == Waiting
      && ReturnToWork(SetWaiting(taken, Seed, user).ticket, Seed, user).Moved?
      && ReturnToWork(SetWaiting(taken, Seed, user).ticket, Seed, user).ticket == taken
  {
    SeedWorkingQueries();
  }

  /** With the seeded statuses, closing lands in "Решено", a final status. */
  lemma SeedCloseSolves(t: Ticket, user: User, now: int)
    ensures Close(t, Seed, user, now).Moved?
    ensures Close(t, Seed, user, now).ticket.status.name == Solved
    ensures Close(t, Seed, user, now).ticket.status.isFinal
  {
    SeedFinalQueries();
  }

  // ---------------------------------------------------------------------------
  // ticket_create / ticket_edit

  /**
   * The assignee chosen from the autocomplete fields: blank text clears it; otherwise a digit
   * id selects that user, and a missing user or a non-digit id clears it.
   */
  function ResolveAssignee(text: Option<string>, idRaw: Option<string>, users: map<nat, User>): (r: Option<User>)
    ensures Strip(text.GetOr("")) == "" ==> r.None?
    ensures r.Some? <==>
      && Strip(text.GetOr("")) != ""
      && IsDigits(Strip(idRaw.GetOr("")))
      && DecimalValue(Strip(idRaw.GetOr(""))) in users
    ensures r.Some? ==> r.value == users[DecimalValue(Strip(idRaw.GetOr("")))]
  {
    var assignedText := Strip(text.GetOr(""));
    var assignedId := Strip(idRaw.GetOr(""));
    if assignedText == "" then None
    else if IsDigits(assignedId) then
      var key := DecimalValue(assignedId);
      if key in users then Some(users[key]) else None
    else None
  }

  /**
   * The autocomplete fields applied to the validated form of `ticket_create`/`ticket_edit`: a given
   * category or client id that exists replaces the form's choice (an unknown one is ignored), the
   * assignee comes from `ResolveAssignee`, and every other field is the form's.
   */
  function ApplyAutocomplete(form: Ticket, categoryId: Option<nat>, clientId: Option<nat>,
                             categories: map<nat, Category>, clients: map<nat, Client>,
                             assigneeText: Option<string>, assigneeId: Option<string>,
                             users: map<nat, User>): (r: Ticket)
    ensures r.category == (if categoryId.Some? && categoryId.value in categories then categories[categoryId.value] else form.category)
    ensures r.client == (if clientId.Some? && clientId.value in clients then clientId.value else form.client)
    ensures r.assignedTo == ResolveAssignee(assigneeText, assigneeId, users)
    ensures r == form.(category := r.category, client := r.client, assignedTo := r.assignedTo)
  {
    var withCategory :=
      if categoryId.Some? && categoryId.value in categories then form.(category := categories[categoryId.value]) else form;
    var withClient :=
      if clientId.Some? && clientId.value in clients then withCategory.(client := clientId.value) else withCategory;
    withClient.(assignedTo := ResolveAssignee(assigneeText, assigneeId, users))
  }

  /** The six model fields of `TicketForm`: what a valid POST writes onto the ticket instance. */
  datatype TicketForm = TicketForm(title: string, description: string, priority: string,
                                   status: TicketStatus, tags: string, externalMessageId: string)

  /** The instance after `is_valid()`: the six form fields are copied onto it, the rest is left as it was. */
  function Validated(t: Ticket, f: TicketForm): Ticket
  {
    t.(title := f.title, description := f.description, priority := f.priority, status := f.status,
       tags := f.tags, externalMessageId := f.externalMessageId)
  }

  /**
   * The row `ticket_edit` saves: the stored ticket with the six form fields, the autocompleted
   * category and client (the stored ones when no known id is given) and the resolved assignee;
   * id, creator, timestamps, resolution, organisation and the Telegram fields are kept.
   */
  function EditedRow(before: Ticket, f: TicketForm, categoryId: Option<nat>, clientId: Option<nat>,
                     categories: map<nat, Category>, clients: map<nat, Client>,
                     assigneeText: Option<string>, assigneeId: Option<string>,
                     users: map<nat, User>): (r: Ticket)
    ensures r.category == (if categoryId.Some? && categoryId.value in categories then categories[categoryId.value] else before.category)
    ensures r.client == (if clientId.Some? && clientId.value in clients then clientId.value else before.client)
    ensures r.assignedTo == ResolveAssignee(assigneeText, assigneeId, users)
    ensures r == before.(title := f.title, description := f.description, priority := f.priority,
                         status := f.status, tags := f.tags, externalMessageId := f.externalMessageId,
                         category := r.category, client := r.client, assignedTo := r.assignedTo)
  {
    ApplyAutocomplete(Validated(before, f), categoryId, clientId, categories, clients, assigneeText, assigneeId, users)
  }

  /**
   * The row `ticket_create` saves under `id`: the six form fields, the category and client the
   * autocomplete ids name, the resolved assignee and the requester as creator; every other field
   * takes the model's default, `created_at` the current time.
   */
  function NewTicket(id: nat, f: TicketForm, category: Category, client: nat, assignee: Option<User>,
                     creator: User, now: int): Ticket
  {
    Ticket(id, f.title, f.description, category, client, None, f.priority, f.status, assignee, now,
           None, None, None, "", "", f.externalMessageId, "", "", f.tags, creator)
  }

  const CreatedComment: string := "Обращение создано"

  /** The `created` audit comment, mentioning the number of uploaded attachments when there are any. */
  function CreateComment(uploaded: nat): (r: string)
    ensures uploaded == 0 ==> r == CreatedComment
    ensures uploaded > 0 ==> r == CreatedComment + " с " + DecimalString(uploaded) + " вложениями"
  {
    if uploaded > 0 then CreatedComment + " с " + DecimalString(uploaded) + " вложениями" else CreatedComment
  }

  /** The user id behind an optional assignee, for comparison as Django compares model instances. */
  function AssigneeKey(u: Option<User>): Option<nat>
  {
    match u
    case Some(v) => Some(v.id)
    case None => None
  }

  /** An assignee's username, or "Не назначен" without one. */
  function AssigneeLabel(u: Option<User>): string
  {
    match u
    case Some(v) => v.username
    case None => Unassigned
  }

  predicate StatusEdited(before: Ticket, after: Ticket) { before.status.id != after.status.id }

  predicate AssigneeEdited(before: Ticket, after: Ticket) { AssigneeKey(before.assignedTo) != AssigneeKey(after.assignedTo) }

  /**
   * The audits `ticket_edit` writes after saving: a `status_changed` row exactly when the status
   * changed and an `assigned` row exactly when the assignee changed, in that order.
   */
  function EditAudits(before: Ticket, after: Ticket, user: User): (r: seq<Audit>)
    ensures |r| == (if StatusEdited(before, after) then 1 else 0) + (if AssigneeEdited(before, after) then 1 else 0)
    ensures StatusEdited(before, after) ==>
      r[0] == Audit(after.id, StatusChanged, user.id, before.status.name, after.status.name, StatusEditedComment)
    ensures AssigneeEdited(before, after) ==>
      r[|r| - 1] == Audit(after.id, Assigned, user.id, AssigneeLabel(before.assignedTo),
                          AssigneeLabel(after.assignedTo), AssigneeEditedComment)
  {
    var statusRows :=
      if StatusEdited(before, after)
      then [Audit(after.id, StatusChanged, user.id, before.status.name, after.status.name, StatusEditedComment)]
      else [];
    var assigneeRows :=
      if AssigneeEdited(before, after)
      then [Audit(after.id, Assigned, user.id, AssigneeLabel(before.assignedTo),
                  AssigneeLabel(after.assignedTo), AssigneeEditedComment)]
      else [];
    statusRows + assigneeRows
  }

  /**
   * The edit audits belong to the edited ticket and the editor, and hold a status change exactly
   * when the status changed and an assignment exactly when the assignee changed.
   */
  lemma EditAuditsMeaning(before: Ticket, after: Ticket, user: User)
    ensures forall a :: a in EditAudits(before, after, user) ==> a.ticket == after.id && a.user == user.id
    ensures (exists a :: a in EditAudits(before, after, user) && a.action == StatusChanged) <==> StatusEdited(before, after)
    ensures (exists a :: a in EditAudits(before, after, user) && a.action == Assigned) <==> AssigneeEdited(before, after)
  {
    var r := EditAudits(before, after, user);
    if StatusEdited(before, after) {
      assert r[0] in r;
    }
    if AssigneeEdited(before, after) {
      assert r[|r| - 1] in r;
    }
  }

  /**
   * The audits `ticket_edit` writes as the code stands: `old_status` and `old_assigned` are read
   * after `is_valid()`, from the instance the form has already filled in, so the "old" status is
   * the submitted one while the old assignee, not a form field, is still the stored one.
   */
  function EditAuditsAsWritten(before: Ticket, f: TicketForm, after: Ticket, user: User): seq<Audit>
  {
    EditAudits(Validated(before, f), after, user)
  }

  /**
   * As written, an edit never logs a status change: the saved row carries the form's status, the
   * same one `old_status` holds. Only an assignee change is logged.
   */
  lemma EditAsWrittenMeaning(before: Ticket, f: TicketForm, after: Ticket, user: User)
    requires after.status == f.status
    ensures EditAuditsAsWritten(before, f, after, user) ==
      if AssigneeEdited(before, after)
      then [Audit(after.id, Assigned, user.id, AssigneeLabel(before.assignedTo),
                  AssigneeLabel(after.assignedTo), AssigneeEditedComment)]
      else []
  {
  }

  /**
   * An edit that moves a ticket to another status and keeps its assignee: the intended audits
   * hold one `status_changed` row from the old to the new status name, the code as written logs
   * nothing.
   */
  lemma StatusEditGoesUnlogged(before: Ticket, f: TicketForm, user: User)
    requires before.status.id != f.status.id
    ensures EditAudits(before, Validated(before, f), user) ==
      [Audit(before.id, StatusChanged, user.id, before.status.name, f.status.name, StatusEditedComment)]
    ensures EditAuditsAsWritten(before, f, Validated(before, f), user) == []
  {
  }

  /** Saving an edit form that changes neither status nor assignee writes no audit. */
  lemma UnchangedEditIsSilent(t: Ticket, form: Ticket, user: User)
    requires form.status == t.status && form.assignedTo == t.assignedTo
    ensures EditAudits(t, form, user) == []
  {
  }

  // ---------------------------------------------------------------------------
  // Admin bulk actions and save_model, per ticket

  const AdminTakenComment: string := "Взято в работу через админку"
  const AdminClosedComment: string := "Решено через админку"
  const AdminUpdatedComment: string := "Обращение обновлено через админку"

  /** One ticket of the "Взять в работу" action: no ownership check, unlike `take_ticket`. */
  function AdminTake(t: Ticket, working: TicketStatus, user: User, now: int): Ticket
  {
    t.(assignedTo := Some(user), status := working, takenAt := Some(now))
  }

  /** One ticket of the "Закрыть обращения" action: sets `closed_at`, not `resolved_at`. */
  function AdminClose(t: Ticket, final: TicketStatus, now: int): Ticket
  {
    t.(status := final, closedAt := Some(now))
  }

  /** On a ticket nobody else holds, the bulk take gives the same row as `take_ticket`. */
  lemma AdminTakeMatchesTake(t: Ticket, statuses: seq<TicketStatus>, user: User, now: int)
    requires First(statuses, Working).Some?
    requires !AssignedToSomeoneElse(t, user)
    ensures Take(t, statuses, user, now).Moved?
    ensures Take(t, statuses, user, now).ticket == AdminTake(t, First(statuses, Working).value, user, now)
  {
  }

  /** The bulk take also takes a ticket held by someone else, which `take_ticket` refuses. */
  lemma AdminTakeOverridesOwner(t: Ticket, statuses: seq<TicketStatus>, user: User, now: int)
    requires First(statuses, Working).Some?
    requires AssignedToSomeoneElse(t, user)
    ensures Take(t, statuses, user, now) == Rejected(AssignedToOther)
    ensures AdminTake(t, First(statuses, Working).value, user, now).assignedTo == Some(user)
  {
  }

  /**
   * With the seeded statuses, the bulk close and `close_ticket` reach the same status "Решено";
   * the bulk close stamps `closed_at` and leaves `resolved_at`, `close_ticket` the other way round.
   */
  lemma SeedAdminCloseMatchesClose(t: Ticket, user: User, now: int)
    requires t.resolvedAt.None?
    ensures First(Seed, Final).Some?
    ensures var viaAdmin := AdminClose(t, First(Seed, Final).value, now);
      && Close(t, Seed, user, now).Moved?
      && viaAdmin.status == Close(t, Seed, user, now).ticket.status
      && viaAdmin.closedAt == Some(now) && viaAdmin.resolvedAt == None
      && Close(t, Seed, user, now).ticket.resolvedAt == Some(now)
      && Close(t, Seed, user, now).ticket.closedAt == t.closedAt
  {
    SeedFinalQueries();
  }
}
