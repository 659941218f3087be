/**
 * The standalone back-fill script (fill_organizations.py): its `fill_organizations()` returns
 * early when no ticket lacks an organisation, and its entry point fills only when confirmed,
 * `--yes` as the first argument confirming without asking. The console answer is a parameter.
 */
module FillScript {

  import opened Wrappers
  import opened Text
  import opened Entities
  import opened Backfill
  import FillCommand

  /**
   * `fill_organizations()`: None when there was nothing to fill (and nothing changed), otherwise
   * the counters of the loop over the back-filled tickets.
   */
  method FillOrganizationsScript(tickets: array<Ticket>, clients: map<nat, Client>) returns (r: Option<FillCounts>)
    modifies tickets
    ensures r.None? <==> WithoutOrganization(old(tickets[..])) == 0
    ensures r.None? ==> tickets[..] == old(tickets[..])
    ensures r.Some? ==> tickets[..] == BackfilledAll(old(tickets[..]), clients) && r.value == Tally(old(tickets[..]), clients)
  {
    var total := FillCommand.CountWithoutOrganization(tickets);
    if total == 0 {
      return None;
    }
    var counts := FillOrganizations(tickets, clients);
    return Some(counts);
  }

  /** The confirmation of the entry point: `--yes` as first argument, else the stripped, lower-cased answer. */
  function ConfirmAnswer(argv: seq<string>, answer: string): (r: string)
    ensures |argv| > 1 && argv[1] == "--yes" ==> r == "y"
  {
    if |argv| > 1 && argv[1] == "--yes" then "y" else Lower(Strip(answer))
  }

  /** `--yes` confirms, and otherwise the script accepts exactly the answers the command accepts. */
  lemma ScriptConfirmsLikeCommand(argv: seq<string>, answer: string)
    ensures var c := ConfirmAnswer(argv, answer);
      FillCommand.IsConfirmation(c) <==>
      ((|argv| > 1 && argv[1] == "--yes") || FillCommand.Confirms(answer))
  {
  }

  /** The `__main__` block: fill iff confirmed; the tickets change only then. */
  method RunScript(argv: seq<string>, answer: string, tickets: array<Ticket>, clients: map<nat, Client>)
    returns (filled: bool)
    modifies tickets
    ensures filled <==> (|argv| > 1 && argv[1] == "--yes") || FillCommand.Confirms(answer)
    ensures !filled ==> tickets[..] == old(tickets[..])
    ensures filled ==> tickets[..] == BackfilledAll(old(tickets[..]), clients)
  {
    var confirm := ConfirmAnswer(argv, answer);
    ScriptConfirmsLikeCommand(argv, answer);
    filled := FillCommand.IsConfirmation(confirm);
    if filled {
      ghost var before := tickets[..];
      var r := FillOrganizationsScript(tickets, clients);
      if r.None? {
        NothingToFillIsFixed(before, clients);
      }
    }
  }
}
