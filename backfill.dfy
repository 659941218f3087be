/**
 * The organisation back-fill loop shared by the management command
 * (tickets/management/commands/fill_organizations.py) and the standalone script
 * (fill_organizations.py): every ticket without an organisation takes its client's organisation,
 * in place, while three counters record what happened. The ticket table is an array; a ticket
 * names its client by id, and a client id with no row is what makes reading `ticket.client`
 * raise, which the loop counts as an error.
 */
module Backfill {

  import opened Wrappers
  import opened Entities

  /** What the loop did: tickets filled, tickets skipped, tickets whose client could not be read. */
  datatype FillCounts = FillCounts(updated: nat, skipped: nat, errors: nat)

  /** The three things that can happen to a visited ticket. */
  datatype Visit = Fill(organization: nat) | Skip | Fail

  /** The visit of a ticket without an organisation: its client's organisation, none, or a missing client. */
  function VisitOf(t: Ticket, clients: map<nat, Client>): Visit
  {
    if t.client !in clients then Fail
    else if clients[t.client].organization.Some? then Fill(clients[t.client].organization.value)
    else Skip
  }

  /** A ticket after the back-fill: only a ticket without organisation whose client has one changes. */
  function Backfilled(t: Ticket, clients: map<nat, Client>): Ticket
  {
    if t.organization.None? && VisitOf(t, clients).Fill? then t.(organization := Some(VisitOf(t, clients).organization)) else t
  }

  /** The counters after visiting the tickets of `s` that have no organisation, in order. */
  function Tally(s: seq<Ticket>, clients: map<nat, Client>): FillCounts
  {
    if s == [] then FillCounts(0, 0, 0) else Counted(Tally(s[..|s| - 1], clients), s[|s| - 1], clients)
  }

  /** The counters after one more ticket: a ticket with an organisation is not visited. */
  function Counted(c: FillCounts, t: Ticket, clients: map<nat, Client>): FillCounts
  {
    if t.organization.Some? then c
    else match VisitOf(t, clients)
      case Fill(_) => c.(updated := c.updated + 1)
      case Skip => c.(skipped := c.skipped + 1)
      case Fail => c.(errors := c.errors + 1)
  }

  /** The tally of one more ticket counts that ticket on top of the tally before it. */
  lemma TallyStep(s: seq<Ticket>, n: nat, clients: map<nat, Client>)
    requires n < |s|
    ensures Tally(s[..n + 1], clients) == Counted(Tally(s[..n], clients), s[n], clients)
  {
    assert s[..n + 1][..n] == s[..n];
  }

  /** The number of tickets without an organisation: the size of the queryset the loop walks. */
  function WithoutOrganization(s: seq<Ticket>): nat
  {
    if s == [] then 0 else WithoutOrganization(s[..|s| - 1]) + (if s[|s| - 1].organization.None? then 1 else 0)
  }

  /** Every visited ticket is counted exactly once: updated + skipped + errors = tickets visited. */
  lemma {:induction false} TallyCoversVisited(s: seq<Ticket>, clients: map<nat, Client>)
    ensures Tally(s, clients).updated + Tally(s, clients).skipped + Tally(s, clients).errors == WithoutOrganization(s)
  {
    if s != [] {
      TallyCoversVisited(s[..|s| - 1], clients);
    }
  }

  /** A ticket without organisation is filled exactly when its client has one. */
  lemma BackfilledMeaning(t: Ticket, clients: map<nat, Client>)
    ensures t.organization.Some? ==> Backfilled(t, clients) == t
    ensures t.organization.None? && t.client in clients ==>
      Backfilled(t, clients) == t.(organization := clients[t.client].organization)
    ensures t.client !in clients ==> Backfilled(t, clients) == t
  {
  }

  /** The tickets after one pass. */
  function BackfilledAll(s: seq<Ticket>, clients: map<nat, Client>): (r: seq<Ticket>)
    ensures |r| == |s|
    ensures forall i :: 0 <= i < |s| ==> r[i] == Backfilled(s[i], clients)
  {
    seq(|s|, i requires 0 <= i < |s| => Backfilled(s[i], clients))
  }

  /**
   * After one pass a ticket that had an organisation is unchanged, a ticket without one takes its
   * client's organisation (or stays without), and a ticket whose client is missing is unchanged.
   */
  lemma BackfilledAllMeaning(s: seq<Ticket>, clients: map<nat, Client>)
    ensures forall i :: 0 <= i < |s| && s[i].organization.Some? ==> BackfilledAll(s, clients)[i] == s[i]
    ensures forall i :: 0 <= i < |s| && s[i].organization.None? && s[i].client in clients ==>
              BackfilledAll(s, clients)[i] == s[i].(organization := clients[s[i].client].organization)
    ensures forall i :: 0 <= i < |s| && s[i].client !in clients ==> BackfilledAll(s, clients)[i] == s[i]
  {
    forall i | 0 <= i < |s|
      ensures BackfilledAll(s, clients)[i] == Backfilled(s[i], clients)
    {
      BackfilledMeaning(s[i], clients);
    }
  }

  /** A second pass over the same clients updates nothing: every ticket it still visits is skipped or an error. */
  lemma {:induction false} SecondPassUpdatesNothing(s: seq<Ticket>, clients: map<nat, Client>)
    ensures Tally(BackfilledAll(s, clients), clients).updated == 0
    ensures BackfilledAll(BackfilledAll(s, clients), clients) == BackfilledAll(s, clients)
  {
    if s != [] {
      var s' := s[..|s| - 1];
      SecondPassUpdatesNothing(s', clients);
      assert BackfilledAll(s, clients)[..|s| - 1] == BackfilledAll(s', clients);
    }
  }

  /** With no ticket lacking an organisation the pass changes nothing. */
  lemma {:induction false} NothingToFillIsFixed(s: seq<Ticket>, clients: map<nat, Client>)
    requires WithoutOrganization(s) == 0
    ensures BackfilledAll(s, clients) == s
  {
    if s != [] {
      var s' := s[..|s| - 1];
      NothingToFillIsFixed(s', clients);
      assert BackfilledAll(s, clients)[..|s| - 1] == BackfilledAll(s', clients);
    }
  }

  /**
   * The loop: tickets that already have an organisation are not visited and stay as they are; a
   * visited ticket whose client has an organisation takes it; any other visited ticket is left
   * unchanged; the counters are the tally of the visits.
   */
  method FillOrganizations(tickets: array<Ticket>, clients: map<nat, Client>) returns (counts: FillCounts)
    modifies tickets
    ensures tickets[..] == BackfilledAll(old(tickets[..]), clients)
    ensures counts == Tally(old(tickets[..]), clients)
    ensures counts.updated + counts.skipped + counts.errors == WithoutOrganization(old(tickets[..]))
  {
    ghost var before := tickets[..];
    var updated, skipped := 0, 0;
    var errors: seq<nat> := [];
    var n := 0;
    while n < tickets.Length
      invariant 0 <= n <= tickets.Length
      invariant forall i :: 0 <= i < n ==> tickets[i] == Backfilled(before[i], clients)
      invariant forall i :: n <= i < tickets.Length ==> tickets[i] == before[i]
      invariant FillCounts(updated, skipped, |errors|) == Tally(before[..n], clients)
    {
      TallyStep(before, n, clients);
      var ticket := tickets[n];
      BackfilledMeaning(ticket, clients);
      if ticket.organization.None? {
        if ticket.client !in clients {
          errors := errors + [ticket.id];
        } else if clients[ticket.client].organization.Some? {
          ticket := ticket.(organization := clients[ticket.client].organization);
          tickets[n] := ticket;
          updated := updated + 1;
        } else {
          skipped := skipped + 1;
        }
      }
      assert tickets[n] == Backfilled(before[n], clients);
      n := n + 1;
    }
    assert before[..n] == before;
    counts := FillCounts(updated, skipped, |errors|);
    TallyCoversVisited(before, clients);
  }
}
