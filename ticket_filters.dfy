/** The template filters of tickets/templatetags/ticket_filters.py that work on strings. */
module TicketFilters {

  import opened Wrappers
  import opened Text

  /** `value.split(delimiter)` either succeeds or raises ValueError for an empty delimiter. */
  datatype SplitResult = Pieces(pieces: seq<string>) | EmptySeparator

  /**
   * The `split` filter: an empty or missing value gives no pieces; otherwise Python's
   * `value.split(delimiter)`, whose pieces joined by the delimiter give back the value
   * and none of which contains the delimiter; the cuts are the leftmost occurrences,
   * so no occurrence starts inside a piece before the last.
   */
  function SplitFilter(value: Option<string>, delimiter: string): (r: SplitResult)
    ensures value.None? || value == Some("") ==> r == Pieces([])
    ensures value.Some? && value.value != "" && delimiter == "" ==> r == EmptySeparator
    ensures value.Some? && value.value != "" && delimiter != "" ==>
      && r.Pieces?
      && |r.pieces| >= 1
      && Join(r.pieces, delimiter) == value.value
      && (forall p :: p in r.pieces ==> !Contains(p, delimiter))
      && forall j :: 0 <= j < |r.pieces| - 1 ==>
           !Contains(r.pieces[j] + delimiter[..|delimiter| - 1], delimiter)
  {
    if value.None? || value.value == "" then Pieces([])
    else if delimiter == "" then EmptySeparator
    else
      JoinSplit(value.value, delimiter);
      SplitPiecesFree(value.value, delimiter);
      SplitLeftmost(value.value, delimiter);
      Pieces(Split(value.value, delimiter))
  }

  /**
   * The `strip` filter: "" for None, otherwise the value without leading and trailing
   * whitespace: the slice that starts after the leading whitespace, with only
   * whitespace after it, and neither starting nor ending with whitespace.
   */
  function StripFilter(value: Option<string>): (r: string)
    ensures value.None? ==> r == ""
    ensures r == [] || (!IsSpace(r[0]) && !IsSpace(r[|r| - 1]))
    ensures value.Some? ==> |r| <= |value.value|
    ensures value.Some? ==>
      && Leading(value.value) + |r| <= |value.value|
      && r == value.value[Leading(value.value)..Leading(value.value) + |r|]
      && (forall k :: 0 <= k < Leading(value.value) ==> IsSpace(value.value[k]))
      && forall k :: Leading(value.value) + |r| <= k < |value.value| ==> IsSpace(value.value[k])
  {
    match value
    case None => ""
    case Some(s) => Strip(s)
  }

  /** Applying the `strip` filter to its own output changes nothing. */
  lemma StripFilterIdempotent(value: Option<string>)
    ensures StripFilter(Some(StripFilter(value))) == StripFilter(value)
  {
    if value.Some? { StripIdempotent(value.value); }
  }
}
