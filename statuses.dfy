/**
 * The ticket status table (TicketStatus, tickets/models.py) and the "first status
 * matching X" queries the views, the admin actions and the bot run against it.
 * The table is a sequence kept in the model's default ordering, `order` then `name`,
 * so `.first()` on a filtered query is the first matching element of the sequence.
 */
module Statuses {

  import opened Wrappers
  import opened Entities

  /** The filters used with `TicketStatus.objects.filter(...).first()`. */
  datatype StatusQuery =
    | Working                    // is_working=True
    | Final                      // is_final=True
    | NonFinal                   // is_final=False
    | Named(name: string)        // name=...
    | WorkingExcept(name: string) // is_working=True, excluding name=...
    | AnyStatus                  // no filter

  predicate Matches(s: TicketStatus, q: StatusQuery)
  {
    match q
    case Working => s.isWorking
    case Final => s.isFinal
    case NonFinal => !s.isFinal
    case Named(n) => s.name == n
    case WorkingExcept(n) => s.isWorking && s.name != n
    case AnyStatus => true
  }

  /** Lexicographic order on names by code point. */
  predicate NameLess(a: string, b: string)
  {
    if |a| == 0 then |b| > 0
    else if |b| == 0 then false
    else a[0] < b[0] || (a[0] == b[0] && NameLess(a[1..], b[1..]))
  }

  lemma {:induction false} NameLessIrreflexive(a: string)
    ensures !NameLess(a, a)
  {
    if |a| > 0 { NameLessIrreflexive(a[1..]); }
  }

  /** Strictly before in the `order, name` ordering. */
  predicate KeyLess(a: TicketStatus, b: TicketStatus)
  {
    a.order < b.order || (a.order == b.order && NameLess(a.name, b.name))
  }

  /** The table is in `order, name` ordering: no later status sorts strictly before an earlier one. */
  predicate Ordered(table: seq<TicketStatus>)
  {
    forall i, j :: 0 <= i < j < |table| ==> !KeyLess(table[j], table[i])
  }

  /** The position of the first status matching `q`, if any. */
  function FirstIndex(table: seq<TicketStatus>, q: StatusQuery): (r: Option<nat>)
    ensures r.Some? ==> r.value < |table| && Matches(table[r.value], q)
    ensures r.Some? ==> forall j :: 0 <= j < r.value ==> !Matches(table[j], q)
    ensures r.None? ==> forall j :: 0 <= j < |table| ==> !Matches(table[j], q)
  {
    if |table| == 0 then None
    else if Matches(table[0], q) then Some(0)
    else match FirstIndex(table[1..], q)
      case None => None
      case Some(i) => Some(i + 1)
  }

  /** `TicketStatus.objects.filter(q).first()`: a matching status from the table, None when none matches. */
  function First(table: seq<TicketStatus>, q: StatusQuery): (r: Option<TicketStatus>)
    ensures r.Some? ==> r.value in table && Matches(r.value, q)
    ensures r.None? <==> forall s :: s in table ==> !Matches(s, q)
  {
    match FirstIndex(table, q)
    case Some(i) => Some(table[i])
    case None => None
  }

  /** In an ordered table the first match is a least match: no matching status sorts before it. */
  lemma FirstIsLeast(table: seq<TicketStatus>, q: StatusQuery)
    requires Ordered(table)
    ensures First(table, q).Some? ==>
      forall s :: s in table && Matches(s, q) ==> !KeyLess(s, First(table, q).value)
  {
    if FirstIndex(table, q).Some? {
      var i := FirstIndex(table, q).value;
      forall s | s in table && Matches(s, q) ensures !KeyLess(s, table[i]) {
        var j :| 0 <= j < |table| && table[j] == s;
        if j == i {
          NameLessIrreflexive(s.name);
        }
      }
    }
  }

  /** The statuses that tickets/management/commands/init_data.py seeds, ids in creation order. */
  const New: string := "Новое"
  const InWork: string := "В работе"
  const Waiting: string := "Ожидает ответа"
  const Solved: string := "Решено"

  const Seed: seq<TicketStatus> := [
    TicketStatus(1, New, false, false, 1),
    TicketStatus(2, InWork, true, false, 2),
    TicketStatus(3, Waiting, true, false, 3),
    TicketStatus(4, Solved, false, true, 4)
  ]

  /** The seeded table is in `order, name` ordering. */
  lemma SeedOrdered()
    ensures Ordered(Seed)
  {
  }

  /** On the seeded table the working queries find "В работе" and the waiting query finds "Ожидает ответа". */
  lemma SeedWorkingQueries()
    ensures First(Seed, Working) == Some(Seed[1])
    ensures First(Seed, WorkingExcept(Waiting)) == Some(Seed[1])
    ensures First(Seed, Named(Waiting)) == Some(Seed[2])
  {
    assert FirstIndex(Seed[2..], Named(Waiting)) == Some(0);
    assert FirstIndex(Seed[1..], Working) == Some(0);
    assert FirstIndex(Seed[1..], WorkingExcept(Waiting)) == Some(0);
  }

  /** On the seeded table the final and "Решено" queries find "Решено", and the open query finds "Новое". */
  lemma SeedFinalQueries()
    ensures First(Seed, Named(Solved)) == Some(Seed[3])
    ensures First(Seed, Final) == Some(Seed[3])
    ensures First(Seed, NonFinal) == Some(Seed[0])
  {
    assert FirstIndex(Seed[3..], Final) == Some(0);
    assert FirstIndex(Seed[3..], Named(Solved)) == Some(0);
  }
}
