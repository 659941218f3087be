/**
 * The ticket views of tickets/views.py and the ticket admin of tickets/admin.py as methods of one
 * in-memory board: the ticket table and the audit log are fields the handlers update in place,
 * the status, user, category and client tables are read-only. Each handler is proved against the
 * pure transition of the Lifecycle module, and every handler keeps the board's invariant.
 */
module Board {

  import opened Wrappers
  import opened Entities
  import opened Statuses
  import opened Lifecycle

  /**
   * What a handler answers: success, a flashed refusal, a 404, the form (GET or invalid POST), or
   * a save that raises because a required foreign key was left empty (a server error).
   */
  datatype Reply = Done | Saved(id: nat) | Refused(why: Refusal) | NotFound | FormShown | SaveFailed

  /** The table and log after a transition: a refusal changes nothing, a move saves one row and appends its audit. */
  predicate Applies(step: Step, id: nat, t0: map<nat, Ticket>, a0: seq<Audit>,
                    t1: map<nat, Ticket>, a1: seq<Audit>, reply: Reply)
  {
    match step
    case Rejected(why) => reply == Refused(why) && t1 == t0 && a1 == a0
    case Moved(t, a) => reply == Done && t1 == t0[id := t] && a1 == a0 + [a]
  }

  /** The audits one admin bulk action writes: one per selected ticket, in selection order. */
  function BulkAudits(ids: seq<nat>, action: AuditAction, user: User, comment: string): seq<Audit>
  {
    seq(|ids|, i requires 0 <= i < |ids| => Audit(ids[i], action, user.id, "", "", comment))
  }

  /** The rows the bulk take saves: each selected ticket taken by `user` at its own clock reading. */
  function TakenRows(t: map<nat, Ticket>, ids: seq<nat>, working: TicketStatus, user: User, times: seq<int>): seq<Ticket>
    requires |times| == |ids|
    requires forall i :: 0 <= i < |ids| ==> ids[i] in t
  {
    seq(|ids|, i requires 0 <= i < |ids| => AdminTake(t[ids[i]], working, user, times[i]))
  }

  /** The rows the bulk close saves: each selected ticket closed at its own clock reading. */
  function ClosedRows(t: map<nat, Ticket>, ids: seq<nat>, final: TicketStatus, times: seq<int>): seq<Ticket>
    requires |times| == |ids|
    requires forall i :: 0 <= i < |ids| ==> ids[i] in t
  {
    seq(|ids|, i requires 0 <= i < |ids| => AdminClose(t[ids[i]], final, times[i]))
  }

  /** The table after saving `rows[i]` under `ids[i]`, one after the other. */
  function Overwrite(t: map<nat, Ticket>, ids: seq<nat>, rows: seq<Ticket>): map<nat, Ticket>
    requires |rows| == |ids|
    decreases |ids|
  {
    if ids == [] then t
    else Overwrite(t, ids[..|ids| - 1], rows[..|ids| - 1])[ids[|ids| - 1] := rows[|ids| - 1]]
  }

  /** A key none of the saved rows goes under keeps its row. */
  lemma {:induction false} OverwriteLeaves(t: map<nat, Ticket>, ids: seq<nat>, rows: seq<Ticket>, k: nat)
    requires |rows| == |ids|
    requires k in t && k !in ids
    ensures k in Overwrite(t, ids, rows) && Overwrite(t, ids, rows)[k] == t[k]
    decreases |ids|
  {
    if ids != [] {
      var m := |ids| - 1;
      OverwriteLeaves(t, ids[..m], rows[..m], k);
    }
  }

  /** Saving one more row extends the overwrite of the shorter prefix. */
  lemma OverwriteStep(t: map<nat, Ticket>, ids: seq<nat>, rows: seq<Ticket>, n: nat)
    requires |rows| == |ids| && n < |ids|
    ensures Overwrite(t, ids[..n + 1], rows[..n + 1]) == Overwrite(t, ids[..n], rows[..n])[ids[n] := rows[n]]
  {
    assert ids[..n + 1][..n] == ids[..n] && rows[..n + 1][..n] == rows[..n];
  }

  /** One more selected ticket adds its audit row at the end. */
  lemma BulkAuditsStep(ids: seq<nat>, n: nat, action: AuditAction, user: User, comment: string)
    requires n < |ids|
    ensures BulkAudits(ids[..n + 1], action, user, comment)
         == BulkAudits(ids[..n], action, user, comment) + [Audit(ids[n], action, user.id, "", "", comment)]
  {
  }

  /** Saving rows under distinct existing ids keeps the keys, stores each row, and leaves the rest. */
  lemma {:induction false} OverwriteFacts(t: map<nat, Ticket>, ids: seq<nat>, rows: seq<Ticket>)
    requires |rows| == |ids|
    requires forall i :: 0 <= i < |ids| ==> ids[i] in t
    requires forall i, j :: 0 <= i < j < |ids| ==> ids[i] != ids[j]
    ensures Overwrite(t, ids, rows).Keys == t.Keys
    ensures forall i :: 0 <= i < |ids| ==> Overwrite(t, ids, rows)[ids[i]] == rows[i]
    ensures forall k :: k in t && k !in ids ==> Overwrite(t, ids, rows)[k] == t[k]
    decreases |ids|
  {
    if ids != [] {
      var m := |ids| - 1;
      OverwriteFacts(t, ids[..m], rows[..m]);
      forall i | 0 <= i < |ids|
        ensures Overwrite(t, ids, rows)[ids[i]] == rows[i]
      {
        if i < m {
          assert ids[..m][i] == ids[i] && rows[..m][i] == rows[i];
        }
      }
    }
  }

  /**
   * What the bulk take saves: every selected ticket is taken by `user` at its own clock reading,
   * whoever held it, every other ticket keeps its row, and the log grows by one `taken` row per
   * selected ticket, naming it.
   */
  lemma BulkTakeMeaning(t: map<nat, Ticket>, ids: seq<nat>, working: TicketStatus, user: User, times: seq<int>)
    requires |times| == |ids|
    requires forall i :: 0 <= i < |ids| ==> ids[i] in t
    requires forall i, j :: 0 <= i < j < |ids| ==> ids[i] != ids[j]
    ensures var t1 := Overwrite(t, ids, TakenRows(t, ids, working, user, times));
      && t1.Keys == t.Keys
      && (forall i :: 0 <= i < |ids| ==>
            t1[ids[i]] == t[ids[i]].(assignedTo := Some(user), status := working, takenAt := Some(times[i])))
      && (forall k :: k in t && k !in ids ==> t1[k] == t[k])
    ensures var log := BulkAudits(ids, Taken, user, AdminTakenComment);
      |log| == |ids| && forall i :: 0 <= i < |ids| ==> log[i].ticket == ids[i] && log[i].action == Taken
  {
    OverwriteFacts(t, ids, TakenRows(t, ids, working, user, times));
  }

  /**
   * What the bulk close saves: every selected ticket takes the final status and `closed_at` = its
   * clock reading, `resolved_at` untouched; every other ticket keeps its row; one `resolved` row
   * per selected ticket.
   */
  lemma BulkCloseMeaning(t: map<nat, Ticket>, ids: seq<nat>, final: TicketStatus, times: seq<int>, user: User)
    requires |times| == |ids|
    requires forall i :: 0 <= i < |ids| ==> ids[i] in t
    requires forall i, j :: 0 <= i < j < |ids| ==> ids[i] != ids[j]
    ensures var t1 := Overwrite(t, ids, ClosedRows(t, ids, final, times));
      && t1.Keys == t.Keys
      && (forall i :: 0 <= i < |ids| ==>
            t1[ids[i]] == t[ids[i]].(status := final, closedAt := Some(times[i])))
      && (forall k :: k in t && k !in ids ==> t1[k] == t[k])
    ensures var log := BulkAudits(ids, Resolved, user, AdminClosedComment);
      |log| == |ids| && forall i :: 0 <= i < |ids| ==> log[i].ticket == ids[i] && log[i].action == Resolved
  {
    OverwriteFacts(t, ids, ClosedRows(t, ids, final, times));
  }

  /**
   * The loop of the "Взять в работу" action over a copy of the table and the log: each selected
   * ticket in turn is taken by `user` at its own clock reading and saved, and its audit appended.
   */
  method SaveTaken(t: map<nat, Ticket>, a: seq<Audit>, ids: seq<nat>, working: TicketStatus, user: User, times: seq<int>)
    returns (table: map<nat, Ticket>, log: seq<Audit>)
    requires |times| == |ids|
    requires forall i :: 0 <= i < |ids| ==> ids[i] in t
    requires forall i, j :: 0 <= i < j < |ids| ==> ids[i] != ids[j]
    ensures table == Overwrite(t, ids, TakenRows(t, ids, working, user, times))
    ensures log == a + BulkAudits(ids, Taken, user, AdminTakenComment)
  {
    ghost var rows := TakenRows(t, ids, working, user, times);
    table, log := t, a;
    var n := 0;
    while n < |ids|
      invariant 0 <= n <= |ids|
      invariant table == Overwrite(t, ids[..n], rows[..n])
      invariant log == a + BulkAudits(ids[..n], Taken, user, AdminTakenComment)
    {
      OverwriteLeaves(t, ids[..n], rows[..n], ids[n]);
      OverwriteStep(t, ids, rows, n);
      BulkAuditsStep(ids, n, Taken, user, AdminTakenComment);
      var ticket := table[ids[n]];
      ticket := ticket.(assignedTo := Some(user), status := working, takenAt := Some(times[n]));
      table := table[ids[n] := ticket];
      log := log + [Audit(ids[n], Taken, user.id, "", "", AdminTakenComment)];
      n := n + 1;
    }
    assert ids[..n] == ids && rows[..n] == rows;
  }

  /**
   * The loop of the "Закрыть обращения" action over a copy of the table and the log: each selected
   * ticket in turn takes the final status and its clock reading as `closed_at`, and its audit is appended.
   */
  method SaveClosed(t: map<nat, Ticket>, a: seq<Audit>, ids: seq<nat>, final: TicketStatus, user: User, times: seq<int>)
    returns (table: map<nat, Ticket>, log: seq<Audit>)
    requires |times| == |ids|
    requires forall i :: 0 <= i < |ids| ==> ids[i] in t
    requires forall i, j :: 0 <= i < j < |ids| ==> ids[i] != ids[j]
    ensures table == Overwrite(t, ids, ClosedRows(t, ids, final, times))
    ensures log == a + BulkAudits(ids, Resolved, user, AdminClosedComment)
  {
    ghost var rows := ClosedRows(t, ids, final, times);
    table, log := t, a;
    var n := 0;
    while n < |ids|
      invariant 0 <= n <= |ids|
      invariant table == Overwrite(t, ids[..n], rows[..n])
      invariant log == a + BulkAudits(ids[..n], Resolved, user, AdminClosedComment)
    {
      OverwriteLeaves(t, ids[..n], rows[..n], ids[n]);
      OverwriteStep(t, ids, rows, n);
      BulkAuditsStep(ids, n, Resolved, user, AdminClosedComment);
      var ticket := table[ids[n]];
      ticket := ticket.(status := final, closedAt := Some(times[n]));
      table := table[ids[n] := ticket];
      log := log + [Audit(ids[n], Resolved, user.id, "", "", AdminClosedComment)];
      n := n + 1;
    }
    assert ids[..n] == ids && rows[..n] == rows;
  }

  /**
   * The board's invariant: statuses are kept in (order, name) order; each ticket is stored under its
   * own id, below `nextId`, in a status of the table; every audit row belongs to a stored ticket.
   */
  ghost predicate BoardInvariant(statuses: seq<TicketStatus>, tickets: map<nat, Ticket>, audits: seq<Audit>, nextId: nat)
  {
    && Ordered(statuses)
    && (forall k :: k in tickets ==> tickets[k].id == k && k < nextId && tickets[k].status in statuses)
    && (forall a :: a in audits ==> a.ticket in tickets)
  }

  /** Replacing one stored row by a row with the same id and a known status, with audits of that ticket, keeps the invariant. */
  lemma ReplaceKeepsInvariant(statuses: seq<TicketStatus>, t: map<nat, Ticket>, a: seq<Audit>, nextId: nat,
                              id: nat, row: Ticket, extra: seq<Audit>)
    requires BoardInvariant(statuses, t, a, nextId)
    requires id in t && row.id == id && row.status in statuses
    requires forall x :: x in extra ==> x.ticket == id
    ensures BoardInvariant(statuses, t[id := row], a + extra, nextId)
  {
  }

  /** Storing a new row under `nextId`, with its audit, and advancing `nextId` keeps the invariant. */
  lemma InsertKeepsInvariant(statuses: seq<TicketStatus>, t: map<nat, Ticket>, a: seq<Audit>, nextId: nat,
                             row: Ticket, audit: Audit)
    requires BoardInvariant(statuses, t, a, nextId)
    requires row.id == nextId && row.status in statuses && audit.ticket == nextId
    ensures nextId !in t
    ensures BoardInvariant(statuses, t[nextId := row], a + [audit], nextId + 1)
  {
  }

  /** The rows of the bulk take keep their ids and take a status of the table. */
  lemma TakenRowsFit(t: map<nat, Ticket>, ids: seq<nat>, working: TicketStatus, user: User, times: seq<int>,
                     statuses: seq<TicketStatus>)
    requires |times| == |ids|
    requires forall i :: 0 <= i < |ids| ==> ids[i] in t
    requires forall k :: k in t ==> t[k].id == k
    requires working in statuses
    ensures forall i :: 0 <= i < |ids| ==>
      TakenRows(t, ids, working, user, times)[i].id == ids[i] && TakenRows(t, ids, working, user, times)[i].status in statuses
  {
  }

  /** The rows of the bulk close keep their ids and take a status of the table. */
  lemma ClosedRowsFit(t: map<nat, Ticket>, ids: seq<nat>, final: TicketStatus, times: seq<int>,
                      statuses: seq<TicketStatus>)
    requires |times| == |ids|
    requires forall i :: 0 <= i < |ids| ==> ids[i] in t
    requires forall k :: k in t ==> t[k].id == k
    requires final in statuses
    ensures forall i :: 0 <= i < |ids| ==>
      ClosedRows(t, ids, final, times)[i].id == ids[i] && ClosedRows(t, ids, final, times)[i].status in statuses
  {
  }

  /** A bulk action that stores, under each selected id, a row with that id and a known status keeps the invariant. */
  lemma BulkKeepsInvariant(statuses: seq<TicketStatus>, nextId: nat, t0: map<nat, Ticket>, a0: seq<Audit>,
                           ids: seq<nat>, rows: seq<Ticket>, action: AuditAction, user: User, comment: string)
    requires BoardInvariant(statuses, t0, a0, nextId)
    requires |rows| == |ids|
    requires forall i :: 0 <= i < |ids| ==> ids[i] in t0
    requires forall i, j :: 0 <= i < j < |ids| ==> ids[i] != ids[j]
    requires forall i :: 0 <= i < |ids| ==> rows[i].id == ids[i] && rows[i].status in statuses
    ensures BoardInvariant(statuses, Overwrite(t0, ids, rows), a0 + BulkAudits(ids, action, user, comment), nextId)
  {
    var t1 := Overwrite(t0, ids, rows);
    var a1 := a0 + BulkAudits(ids, action, user, comment);
    OverwriteFacts(t0, ids, rows);
    forall k | k in t1
      ensures t1[k].id == k && k < nextId && t1[k].status in statuses
    {
      if k in ids {
        var i :| 0 <= i < |ids| && ids[i] == k;
      }
    }
    forall a | a in a1
      ensures a.ticket in t1
    {
      if a !in a0 {
        var j :| 0 <= j < |ids| && BulkAudits(ids, action, user, comment)[j] == a;
      }
    }
  }

  class TicketBoard {
    const statuses: seq<TicketStatus>
    const users: map<nat, User>
    const categories: map<nat, Category>
    const clients: map<nat, Client>
    var tickets: map<nat, Ticket>
    var audits: seq<Audit>
    /** The id the database gives the next saved ticket. */
    var nextId: nat

    /**
     * Statuses are kept in (order, name) order; each ticket is stored under its own id, below
     * `nextId`, in a status of the table; every audit row belongs to a stored ticket.
     */
    ghost predicate Valid()
      reads this
    {
      BoardInvariant(statuses, tickets, audits, nextId)
    }

    constructor(statuses: seq<TicketStatus>, users: map<nat, User>,
                categories: map<nat, Category>, clients: map<nat, Client>)
      requires Ordered(statuses)
      ensures Valid()
      ensures this.statuses == statuses && this.users == users
      ensures this.categories == categories && this.clients == clients
      ensures tickets == map[] && audits == [] && nextId == 1
    {
      this.statuses := statuses;
      this.users := users;
      this.categories := categories;
      this.clients := clients;
      tickets := map[];
      audits := [];
      nextId := 1;
    }

    /** `take_ticket`. */
    method TakeTicket(id: nat, user: User, now: int) returns (reply: Reply)
      requires Valid()
      modifies this
      ensures Valid() && nextId == old(nextId)
      ensures id !in old(tickets) ==> reply == NotFound && tickets == old(tickets) && audits == old(audits)
      ensures id in old(tickets) ==>
        Applies(Take(old(tickets)[id], statuses, user, now), id, old(tickets), old(audits), tickets, audits, reply)
    {
      if id !in tickets {
        return NotFound;
      }
      var ticket := tickets[id];
      if ticket.assignedTo.Some? && ticket.assignedTo.value.id != user.id {
        return Refused(AssignedToOther);
      }
      var working := First(statuses, Working);
      if working.None? {
        return Refused(NoWorkingStatus);
      }
      ticket := ticket.(assignedTo := Some(user), status := working.value, takenAt := Some(now));
      tickets := tickets[id := ticket];
      audits := audits + [Audit(id, Taken, user.id, "", "", TakenComment)];
      reply := Done;
    }

    /** `resolve_ticket`: a GET only shows the form. */
    method ResolveTicket(id: nat, isPost: bool, resolution: string, notes: string, user: User, now: int)
      returns (reply: Reply)
      requires Valid()
      modifies this
      ensures Valid() && nextId == old(nextId)
      ensures id !in old(tickets) ==> reply == NotFound && tickets == old(tickets) && audits == old(audits)
      ensures id in old(tickets) && !isPost ==> reply == FormShown && tickets == old(tickets) && audits == old(audits)
      ensures id in old(tickets) && isPost ==>
        Applies(Resolve(old(tickets)[id], statuses, user, now, resolution, notes),
                id, old(tickets), old(audits), tickets, audits, reply)
    {
      if id !in tickets {
        return NotFound;
      }
      if !isPost {
        return FormShown;
      }
      var solved := First(statuses, Named(Solved));
      if solved.None? {
        return Refused(NoResolvedStatus);
      }
      var ticket := tickets[id].(status := solved.value, resolution := resolution,
                                 resolutionNotes := notes, resolvedAt := Some(now));
      tickets := tickets[id := ticket];
      audits := audits + [Audit(id, Resolved, user.id, "", "", ResolveComment(resolution))];
      reply := Done;
    }

    /** `close_ticket`. */
    method CloseTicket(id: nat, user: User, now: int) returns (reply: Reply)
      requires Valid()
      modifies this
      ensures Valid() && nextId == old(nextId)
      ensures id !in old(tickets) ==> reply == NotFound && tickets == old(tickets) && audits == old(audits)
      ensures id in old(tickets) ==>
        Applies(Close(old(tickets)[id], statuses, user, now), id, old(tickets), old(audits), tickets, audits, reply)
    {
      if id !in tickets {
        return NotFound;
      }
      var target := First(statuses, Named(Solved));
      if target.None? {
        target := First(statuses, Final);
      }
      if target.None? {
        return Refused(NoFinalStatus);
      }
      var ticket := tickets[id].(status := target.value);
      if ticket.resolvedAt.None? {
        ticket := ticket.(resolvedAt := Some(now));
      }
      tickets := tickets[id := ticket];
      audits := audits + [Audit(id, Resolved, user.id, "", "", ClosedComment)];
      reply := Done;
    }

    /** `set_waiting`. */
    method SetWaitingTicket(id: nat, user: User) returns (reply: Reply)
      requires Valid()
      modifies this
      ensures Valid() && nextId == old(nextId)
      ensures id !in old(tickets) ==> reply == NotFound && tickets == old(tickets) && audits == old(audits)
      ensures id in old(tickets) ==>
        Applies(SetWaiting(old(tickets)[id], statuses, user), id, old(tickets), old(audits), tickets, audits, reply)
    {
      if id !in tickets {
        return NotFound;
      }
      var ticket := tickets[id];
      if !ticket.status.isWorking {
        return Refused(NotWorking);
      }
      var waiting := First(statuses, Named(Waiting));
      if waiting.None? {
        return Refused(NoWaitingStatus);
      }
      if ticket.status.id == waiting.value.id {
        return Refused(AlreadyWaiting);
      }
      var oldStatus := ticket.status;
      tickets := tickets[id := ticket.(status := waiting.value)];
      audits := audits + [Audit(id, StatusChanged, user.id, oldStatus.name, waiting.value.name, WaitingComment)];
      reply := Done;
    }

    /** `return_to_work`. */
    method ReturnTicketToWork(id: nat, user: User) returns (reply: Reply)
      requires Valid()
      modifies this
      ensures Valid() && nextId == old(nextId)
      ensures id !in old(tickets) ==> reply == NotFound && tickets == old(tickets) && audits == old(audits)
      ensures id in old(tickets) ==>
        Applies(ReturnToWork(old(tickets)[id], statuses, user), id, old(tickets), old(audits), tickets, audits, reply)
    {
      if id !in tickets {
        return NotFound;
      }
      var ticket := tickets[id];
      if ticket.status.name != Waiting {
        return Refused(NotWaiting);
      }
      var working := First(statuses, WorkingExcept(Waiting));
      if working.None? {
        return Refused(NoWorkingStatus);
      }
      var oldStatus := ticket.status;
      tickets := tickets[id := ticket.(status := working.value)];
      audits := audits + [Audit(id, StatusChanged, user.id, oldStatus.name, working.value.name, ReturnedComment)];
      reply := Done;
    }

    /**
     * `ticket_create`: `form` is the validated form (None for a GET or an invalid POST). The
     * category and client are set only from ids that name a row; when either is left empty the
     * save raises and nothing is written. Otherwise the new ticket gets the next id and the
     * requester as creator, and one `created` audit is written.
     */
    method CreateTicket(form: Option<TicketForm>, categoryId: Option<nat>, clientId: Option<nat>,
                        assigneeText: Option<string>, assigneeId: Option<string>,
                        user: User, uploaded: nat, now: int) returns (reply: Reply)
      requires Valid()
      requires form.Some? ==> form.value.status in statuses
      modifies this
      ensures Valid()
      ensures form.None? ==> reply == FormShown && tickets == old(tickets) && audits == old(audits) && nextId == old(nextId)
      ensures form.Some? && !(categoryId.Some? && categoryId.value in categories && clientId.Some? && clientId.value in clients) ==>
        reply == SaveFailed && tickets == old(tickets) && audits == old(audits) && nextId == old(nextId)
      ensures form.Some? && categoryId.Some? && categoryId.value in categories && clientId.Some? && clientId.value in clients ==>
        var saved := NewTicket(old(nextId), form.value, categories[categoryId.value], clientId.value,
                               ResolveAssignee(assigneeText, assigneeId, users), user, now);
        && reply == Saved(old(nextId))
        && old(nextId) !in old(tickets)
        && tickets == old(tickets)[old(nextId) := saved]
        && nextId == old(nextId) + 1
        && audits == old(audits) + [Audit(old(nextId), Created, user.id, "", "", CreateComment(uploaded))]
    {
      if form.None? {
        return FormShown;
      }
      var category: Option<Category> := None;
      if categoryId.Some? && categoryId.value in categories {
        category := Some(categories[categoryId.value]);
      }
      var client: Option<nat> := None;
      if clientId.Some? && clientId.value in clients {
        client := Some(clientId.value);
      }
      var assignee := ResolveAssignee(assigneeText, assigneeId, users);
      if category.None? || client.None? {
        return SaveFailed;
      }
      var ticket := NewTicket(nextId, form.value, category.value, client.value, assignee, user, now);
      var audit := Audit(nextId, Created, user.id, "", "", CreateComment(uploaded));
      InsertKeepsInvariant(statuses, tickets, audits, nextId, ticket, audit);
      tickets := tickets[nextId := ticket];
      audits := audits + [audit];
      reply := Saved(nextId);
      nextId := nextId + 1;
    }

    /**
     * `ticket_edit`: `form` is the validated form for ticket `id` (None for a GET or an invalid
     * POST). The row becomes `EditedRow`, followed by the audits the code writes, which compare
     * against the instance the form has already filled in (`EditAuditsAsWritten`).
     */
    method EditTicket(id: nat, form: Option<TicketForm>, categoryId: Option<nat>, clientId: Option<nat>,
                      assigneeText: Option<string>, assigneeId: Option<string>, user: User)
      returns (reply: Reply)
      requires Valid()
      requires form.Some? ==> form.value.status in statuses
      modifies this
      ensures Valid() && nextId == old(nextId)
      ensures id !in old(tickets) ==> reply == NotFound && tickets == old(tickets) && audits == old(audits)
      ensures id in old(tickets) && form.None? ==> reply == FormShown && tickets == old(tickets) && audits == old(audits)
      ensures id in old(tickets) && form.Some? ==>
        var saved := EditedRow(old(tickets)[id], form.value, categoryId, clientId, categories, clients,
                               assigneeText, assigneeId, users);
        && reply == Done
        && tickets == old(tickets)[id := saved]
        && audits == old(audits) + EditAuditsAsWritten(old(tickets)[id], form.value, saved, user)
    {
      if id !in tickets {
        return NotFound;
      }
      if form.None? {
        return FormShown;
      }
      var instance := Validated(tickets[id], form.value);
      var oldStatus := instance.status;
      var oldAssigned := instance.assignedTo;
      var ticket := ApplyAutocomplete(instance, categoryId, clientId, categories, clients,
                                      assigneeText, assigneeId, users);
      assert ticket == EditedRow(tickets[id], form.value, categoryId, clientId, categories, clients,
                                 assigneeText, assigneeId, users);
      var log := audits;
      if oldStatus.id != ticket.status.id {
        log := log + [Audit(id, StatusChanged, user.id, oldStatus.name, ticket.status.name, StatusEditedComment)];
      }
      if AssigneeKey(oldAssigned) != AssigneeKey(ticket.assignedTo) {
        log := log + [Audit(id, Assigned, user.id, AssigneeLabel(oldAssigned),
                            AssigneeLabel(ticket.assignedTo), AssigneeEditedComment)];
      }
      assert log == audits + EditAuditsAsWritten(tickets[id], form.value, ticket, user);
      EditAuditsMeaning(instance, ticket, user);
      ReplaceKeepsInvariant(statuses, tickets, audits, nextId, id, ticket, EditAuditsAsWritten(tickets[id], form.value, ticket, user));
      tickets := tickets[id := ticket];
      audits := log;
      reply := Done;
    }

    /**
     * The admin action "Взять в работу" over the selected tickets `ids`, reading the clock once per
     * ticket (`times`): with no working status nothing changes; otherwise each selected ticket is
     * taken by the requester whoever holds it, the others are untouched, and one audit per ticket
     * is appended.
     */
    method TakeTickets(ids: seq<nat>, user: User, times: seq<int>)
      requires Valid()
      requires |times| == |ids|
      requires forall i :: 0 <= i < |ids| ==> ids[i] in tickets
      requires forall i, j :: 0 <= i < j < |ids| ==> ids[i] != ids[j]
      modifies this
      ensures Valid() && nextId == old(nextId)
      ensures First(statuses, Working).None? ==> tickets == old(tickets) && audits == old(audits)
      ensures First(statuses, Working).Some? ==>
        && tickets == Overwrite(old(tickets), ids, TakenRows(old(tickets), ids, First(statuses, Working).value, user, times))
        && audits == old(audits) + BulkAudits(ids, Taken, user, AdminTakenComment)
    {
      var working := First(statuses, Working);
      if working.None? {
        return;
      }
      assert BoardInvariant(statuses, tickets, audits, nextId);
      var table, log := SaveTaken(tickets, audits, ids, working.value, user, times);
      TakenRowsFit(tickets, ids, working.value, user, times, statuses);
      BulkKeepsInvariant(statuses, nextId, tickets, audits, ids, TakenRows(tickets, ids, working.value, user, times),
                         Taken, user, AdminTakenComment);
      tickets := table;
      audits := log;
    }

    /**
     * The admin action "Закрыть обращения": with no final status nothing changes; otherwise each
     * selected ticket takes the first final status and `closed_at` = its clock reading, the others
     * are untouched, and one `resolved` audit per ticket is appended.
     */
    method CloseTickets(ids: seq<nat>, user: User, times: seq<int>)
      requires Valid()
      requires |times| == |ids|
      requires forall i :: 0 <= i < |ids| ==> ids[i] in tickets
      requires forall i, j :: 0 <= i < j < |ids| ==> ids[i] != ids[j]
      modifies this
      ensures Valid() && nextId == old(nextId)
      ensures First(statuses, Final).None? ==> tickets == old(tickets) && audits == old(audits)
      ensures First(statuses, Final).Some? ==>
        && tickets == Overwrite(old(tickets), ids, ClosedRows(old(tickets), ids, First(statuses, Final).value, times))
        && audits == old(audits) + BulkAudits(ids, Resolved, user, AdminClosedComment)
    {
      var closed := First(statuses, Final);
      if closed.None? {
        return;
      }
      assert BoardInvariant(statuses, tickets, audits, nextId);
      var table, log := SaveClosed(tickets, audits, ids, closed.value, user, times);
      ClosedRowsFit(tickets, ids, closed.value, times, statuses);
      BulkKeepsInvariant(statuses, nextId, tickets, audits, ids, ClosedRows(tickets, ids, closed.value, times),
                         Resolved, user, AdminClosedComment);
      tickets := table;
      audits := log;
    }

    /**
     * `TicketAdmin.save_model`: a new ticket (`change` false) gets the next id and the requester as
     * creator and no audit; a changed ticket is saved as given, with one `updated` audit. The
     * creator is a read-only field of the ticket admin, so a changed ticket arrives with the stored
     * creator, and saving keeps it.
     */
    method AdminSaveModel(obj: Ticket, user: User, change: bool) returns (id: nat)
      requires Valid()
      requires obj.status in statuses
      requires change ==> obj.id in tickets && obj.createdBy == tickets[obj.id].createdBy
      modifies this
      ensures Valid()
      ensures change ==>
        && id == obj.id
        && tickets == old(tickets)[id := obj]
        && tickets[id].createdBy == old(tickets)[id].createdBy
        && nextId == old(nextId)
        && audits == old(audits) + [Audit(id, Updated, user.id, "", "", AdminUpdatedComment)]
      ensures !change ==>
        && id == old(nextId) && id !in old(tickets)
        && tickets == old(tickets)[id := obj.(id := id, createdBy := user)]
        && nextId == old(nextId) + 1
        && audits == old(audits)
    {
      var row := obj;
      if !change {
        row := row.(createdBy := user);
        row := row.(id := nextId);
        nextId := nextId + 1;
      }
      tickets := tickets[row.id := row];
      if change {
        audits := audits + [Audit(row.id, Updated, user.id, "", "", AdminUpdatedComment)];
      }
      id := row.id;
    }
  }
}
