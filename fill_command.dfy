/**
 * The control flow of the `fill_organizations` management command
 * (tickets/management/commands/fill_organizations.py): stop when nothing needs filling, only
 * preview under `--dry-run`, ask for confirmation unless `--yes`, then run the back-fill loop.
 * The console answer is a parameter; it is read only when the command asks for it.
 */
module FillCommand {

  import opened Text
  import opened Entities
  import opened Backfill

  /** The normalised answers that confirm a run. */
  predicate IsConfirmation(a: string)
  {
    a == "y" || a == "yes" || a == "да" || a == "д"
  }

  /** An answer that confirms once stripped and lower-cased. */
  predicate Confirms(answer: string)
  {
    IsConfirmation(Lower(Strip(answer)))
  }

  datatype Outcome = NothingToFill | Previewed | Cancelled | Ran(counts: FillCounts)

  /**
   * `Command.handle`: with no ticket lacking an organisation it returns before anything else; in
   * dry-run mode it changes nothing; without `--yes` it runs only for a confirming answer; when
   * it runs, the tickets are exactly the back-filled ones.
   */
  method Handle(tickets: array<Ticket>, clients: map<nat, Client>, dryRun: bool, autoConfirm: bool, answer: string)
    returns (outcome: Outcome)
    modifies tickets
    ensures WithoutOrganization(old(tickets[..])) == 0 ==> outcome == NothingToFill
    ensures WithoutOrganization(old(tickets[..])) > 0 && dryRun ==> outcome == Previewed
    ensures WithoutOrganization(old(tickets[..])) > 0 && !dryRun && !autoConfirm && !Confirms(answer) ==> outcome == Cancelled
    ensures outcome.Ran? <==> WithoutOrganization(old(tickets[..])) > 0 && !dryRun && (autoConfirm || Confirms(answer))
    ensures !outcome.Ran? ==> tickets[..] == old(tickets[..])
    ensures outcome.Ran? ==>
      tickets[..] == BackfilledAll(old(tickets[..]), clients) && outcome.counts == Tally(old(tickets[..]), clients)
  {
    var total := CountWithoutOrganization(tickets);
    if total == 0 {
      return NothingToFill;
    }
    if dryRun {
      return Previewed;
    }
    if !autoConfirm {
      var confirm := Lower(Strip(answer));
      if !IsConfirmation(confirm) {
        return Cancelled;
      }
    }
    var counts := FillOrganizations(tickets, clients);
    return Ran(counts);
  }

  /** `tickets_without_org.count()`. */
  method CountWithoutOrganization(tickets: array<Ticket>) returns (total: nat)
    ensures total == WithoutOrganization(tickets[..])
  {
    total := 0;
    var n := 0;
    while n < tickets.Length
      invariant 0 <= n <= tickets.Length
      invariant total == WithoutOrganization(tickets[..n])
    {
      assert tickets[..n + 1] == tickets[..n] + [tickets[n]];
      if tickets[n].organization.None? {
        total := total + 1;
      }
      n := n + 1;
    }
    assert tickets[..n] == tickets[..];
  }
}
