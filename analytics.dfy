/**
 * The helpers of the analytics view in tickets/views.py: choosing the first usable value of a
 * repeated query parameter, and building the "top tags" chart from the comma-separated `tags`
 * field of the selected tickets (the organisation chart counts names the same way).
 */
module Analytics {

  import opened Wrappers
  import opened Text

  /** The query values the view treats as "no value". */
  predicate IsSentinel(v: string)
  {
    v == "" || v == "None" || v == "null" || v == "NULL"
  }

  /**
   * `first_non_empty`: the first value of the parameter list that is not a sentinel, or None when
   * every value is one.
   */
  method FirstNonEmpty(values: seq<string>) returns (r: Option<string>)
    ensures r.None? <==> forall k :: 0 <= k < |values| ==> IsSentinel(values[k])
    ensures r.Some? ==> exists k :: 0 <= k < |values| && values[k] == r.value
                                    && !IsSentinel(values[k])
                                    && forall j :: 0 <= j < k ==> IsSentinel(values[j])
  {
    var i := 0;
    while i < |values|
      invariant 0 <= i <= |values|
      invariant forall j :: 0 <= j < i ==> IsSentinel(values[j])
    {
      if !IsSentinel(values[i]) {
        return Some(values[i]);
      }
      i := i + 1;
    }
    return None;
  }

  /** The stripped, non-empty pieces of a list of pieces, in order. */
  function KeepStripped(pieces: seq<string>): (r: seq<string>)
    ensures |r| <= |pieces|
  {
    if pieces == [] then []
    else
      var head := Strip(pieces[0]);
      if head != "" then [head] + KeepStripped(pieces[1..]) else KeepStripped(pieces[1..])
  }

  /** Every kept piece is the non-empty strip of some piece. */
  lemma {:induction false} KeepStrippedSound(pieces: seq<string>)
    ensures forall t :: t in KeepStripped(pieces) ==> t != "" && exists p :: p in pieces && t == Strip(p)
  {
    if pieces != [] {
      KeepStrippedSound(pieces[1..]);
      forall t | t in KeepStripped(pieces)
        ensures t != "" && exists p :: p in pieces && t == Strip(p)
      {
        if t != Strip(pieces[0]) {
          assert t in KeepStripped(pieces[1..]);
          var p :| p in pieces[1..] && t == Strip(p);
          assert p in pieces;
        }
      }
    }
  }

  /** Every piece that is not blank is kept, stripped. */
  lemma {:induction false} KeepStrippedComplete(pieces: seq<string>)
    ensures forall p :: p in pieces && Strip(p) != "" ==> Strip(p) in KeepStripped(pieces)
  {
    if pieces != [] {
      KeepStrippedComplete(pieces[1..]);
      forall p | p in pieces && Strip(p) != ""
        ensures Strip(p) in KeepStripped(pieces)
      {
        if p != pieces[0] {
          assert p in pieces[1..];
        }
      }
    }
  }

  /** The tags of one ticket: its `tags` field split on ",", each piece stripped, empty pieces dropped. */
  function ParseTags(field: string): seq<string>
  {
    KeepStripped(Split(field, ","))
  }

  /**
   * Every tag is non-empty, has no surrounding whitespace and no comma; every tag comes from a
   * piece of the field, and every non-blank piece yields one.
   */
  lemma ParseTagsMeaning(field: string)
    ensures forall t :: t in ParseTags(field) ==> t != "" && Strip(t) == t && !Contains(t, ",")
    ensures forall p :: p in Split(field, ",") && Strip(p) != "" ==> Strip(p) in ParseTags(field)
    ensures forall t :: t in ParseTags(field) ==> exists p :: p in Split(field, ",") && t == Strip(p)
  {
    var pieces := Split(field, ",");
    SplitPiecesFree(field, ",");
    KeepStrippedSound(pieces);
    KeepStrippedComplete(pieces);
    forall t | t in ParseTags(field)
      ensures Strip(t) == t && !Contains(t, ",")
    {
      var p :| p in pieces && t == Strip(p);
      StripIdempotent(p);
      StripKeepsAbsent(p, ",");
    }
  }

  /** An occurrence inside the slice `s[i..j]` is an occurrence in `s`, shifted by `i`. */
  lemma OccursInSlice(s: string, sep: string, i: nat, j: nat, k: nat)
    requires i <= j <= |s| && OccursAt(s[i..j], sep, k)
    ensures OccursAt(s, sep, i + k)
  {
    var inSlice, inWhole := s[i..j][k..k + |sep|], s[i + k..i + k + |sep|];
    assert forall m :: 0 <= m < |sep| ==> inSlice[m] == inWhole[m];
    assert inSlice == inWhole;
  }

  /** Stripping never brings in a separator the string did not contain. */
  lemma StripKeepsAbsent(s: string, sep: string)
    requires !Contains(s, sep)
    ensures !Contains(Strip(s), sep)
  {
    var i := Leading(s);
    var r := Strip(s);
    if Contains(r, sep) {
      var k: nat :| k <= |r| && OccursAt(r, sep, k);
      OccursInSlice(s, sep, i, i + |r|, k);
    }
  }

  /** Every tag of the selected tickets, field by field; empty fields are skipped as the query excludes them. */
  function AllTags(fields: seq<string>): seq<string>
  {
    if fields == [] then []
    else AllTags(fields[..|fields| - 1]) + (if fields[|fields| - 1] == "" then [] else ParseTags(fields[|fields| - 1]))
  }

  /** Excluding empty fields is only a shortcut: an empty field has no tags anyway. */
  lemma EmptyFieldHasNoTags()
    ensures ParseTags("") == []
  {
    assert Split("", ",") == [""] by {
      assert Find("", ",", 0) == None;
    }
    assert Strip("") == "";
  }

  /** The tags of one more field come after those of the fields before it. */
  lemma AllTagsStep(fields: seq<string>, i: nat)
    requires i < |fields|
    ensures AllTags(fields[..i + 1]) == AllTags(fields[..i]) + (if fields[i] == "" then [] else ParseTags(fields[i]))
  {
    assert fields[..i + 1][..i] == fields[..i];
  }

  /** The prefix one longer is the prefix followed by the next element. */
  lemma PrefixGrows<T>(s: seq<T>, j: nat)
    requires j < |s|
    ensures s[..j + 1] == s[..j] + [s[j]]
  {
  }

  /** The inner loop: the tags of one field appended one by one. */
  method AppendEach(byTags: seq<string>, tags: seq<string>) returns (r: seq<string>)
    ensures r == byTags + tags
  {
    r := byTags;
    var j := 0;
    while j < |tags|
      invariant 0 <= j <= |tags|
      invariant r == byTags + tags[..j]
    {
      r := r + [tags[j]];
      PrefixGrows(tags, j);
      j := j + 1;
    }
    assert tags[..j] == tags;
  }

  /** The loop that fills `by_tags`: one pass over the fields, appending each field's tags. */
  method CollectTags(fields: seq<string>) returns (byTags: seq<string>)
    ensures byTags == AllTags(fields)
  {
    byTags := [];
    var i := 0;
    while i < |fields|
      invariant 0 <= i <= |fields|
      invariant byTags == AllTags(fields[..i])
    {
      AllTagsStep(fields, i);
      if fields[i] != "" {
        byTags := AppendEach(byTags, ParseTags(fields[i]));
      }
      i := i + 1;
    }
    assert fields[..i] == fields;
  }

  /** Every collected tag is non-empty and has no surrounding whitespace or comma. */
  lemma {:induction false} AllTagsClean(fields: seq<string>)
    ensures forall t :: t in AllTags(fields) ==> t != "" && Strip(t) == t && !Contains(t, ",")
  {
    if fields != [] {
      var last := fields[|fields| - 1];
      AllTagsClean(fields[..|fields| - 1]);
      ParseTagsMeaning(last);
    }
  }

  /** The organisation names the organisation chart counts: one per ticket whose client has an organisation. */
  function OrganizationNames(orgs: seq<Option<string>>): seq<string>
  {
    if orgs == [] then []
    else OrganizationNames(orgs[..|orgs| - 1]) + (if orgs[|orgs| - 1].Some? then [orgs[|orgs| - 1].value] else [])
  }

  /**
   * The loop of the organisation chart, over the selected tickets' client organisations (None for
   * a ticket without client or without organisation).
   */
  method CollectOrganizations(orgs: seq<Option<string>>) returns (names: seq<string>)
    ensures names == OrganizationNames(orgs)
    ensures |names| <= |orgs|
    ensures forall x :: x in names <==> Some(x) in orgs
  {
    names := [];
    var i := 0;
    while i < |orgs|
      invariant 0 <= i <= |orgs|
      invariant names == OrganizationNames(orgs[..i])
      invariant |names| <= i
      invariant forall x :: x in names <==> Some(x) in orgs[..i]
    {
      assert orgs[..i + 1] == orgs[..i] + [orgs[i]];
      if orgs[i].Some? {
        names := names + [orgs[i].value];
      }
      i := i + 1;
    }
    assert orgs[..i] == orgs;
  }

  /** How many times `x` occurs in `s`. */
  function Count(s: seq<string>, x: string): nat
  {
    if s == [] then 0 else Count(s[..|s| - 1], x) + (if s[|s| - 1] == x then 1 else 0)
  }

  lemma {:induction false} CountPositiveIffIn(s: seq<string>, x: string)
    ensures Count(s, x) > 0 <==> x in s
  {
    if s != [] {
      CountPositiveIffIn(s[..|s| - 1], x);
      assert s == s[..|s| - 1] + [s[|s| - 1]];
    }
  }

  /**
   * `Counter(by_tags)`: the distinct tags in order of first appearance, each with its number of
   * occurrences.
   */
  method CountTags(byTags: seq<string>) returns (items: seq<(string, nat)>)
    ensures DistinctNames(items)
    ensures forall i :: 0 <= i < |items| ==> items[i].0 in byTags && items[i].1 == Count(byTags, items[i].0)
    ensures forall x :: x in byTags ==> exists i :: 0 <= i < |items| && items[i].0 == x
  {
    var order: seq<string> := [];
    var counts: map<string, nat> := map[];
    var n := 0;
    while n < |byTags|
      invariant 0 <= n <= |byTags|
      invariant forall i, j :: 0 <= i < j < |order| ==> order[i] != order[j]
      invariant counts.Keys == set x | x in order
      invariant forall x :: x in order <==> x in byTags[..n]
      invariant forall x :: x in counts ==> counts[x] == Count(byTags[..n], x)
    {
      var tag := byTags[n];
      assert byTags[..n + 1][..n] == byTags[..n];
      if tag in counts {
        counts := counts[tag := counts[tag] + 1];
      } else {
        CountPositiveIffIn(byTags[..n], tag);
        order := order + [tag];
        counts := counts[tag := 1];
      }
      n := n + 1;
    }
    assert byTags[..n] == byTags;
    items := seq(|order|, i requires 0 <= i < |order| => (order[i], counts[order[i]]));
    forall x | x in byTags
      ensures exists i :: 0 <= i < |items| && items[i].0 == x
    {
      var i :| 0 <= i < |order| && order[i] == x;
      assert items[i].0 == x;
    }
  }

  /** Counts never increase along the sequence. */
  predicate SortedDesc(s: seq<(string, nat)>)
  {
    forall i, j :: 0 <= i < j < |s| ==> s[i].1 >= s[j].1
  }

  /** No name occurs twice. */
  predicate DistinctNames(s: seq<(string, nat)>)
  {
    forall i, j :: 0 <= i < j < |s| ==> s[i].0 != s[j].0
  }

  /** Insert `x` after every entry with a count at least its own, so equal counts keep their order. */
  function InsertDesc(s: seq<(string, nat)>, x: (string, nat)): (r: seq<(string, nat)>)
    ensures |r| == |s| + 1
  {
    if s == [] then [x]
    else if s[0].1 >= x.1 then [s[0]] + InsertDesc(s[1..], x)
    else [x] + s
  }

  /** Inserting adds exactly `x` to the entries. */
  lemma {:induction false} InsertDescPermutes(s: seq<(string, nat)>, x: (string, nat))
    ensures multiset(InsertDesc(s, x)) == multiset(s) + multiset{x}
  {
    if s != [] && s[0].1 >= x.1 {
      InsertDescPermutes(s[1..], x);
      assert s == [s[0]] + s[1..];
    }
  }

  /** Inserting an entry no larger than a bound into entries no larger than it gives entries no larger than it. */
  lemma {:induction false} InsertDescBounded(s: seq<(string, nat)>, x: (string, nat), c: nat)
    requires forall k :: 0 <= k < |s| ==> s[k].1 <= c
    requires x.1 <= c
    ensures forall k :: 0 <= k < |InsertDesc(s, x)| ==> InsertDesc(s, x)[k].1 <= c
  {
    if s != [] && s[0].1 >= x.1 {
      InsertDescBounded(s[1..], x, c);
    }
  }

  /** Inserting into entries sorted by count keeps them sorted. */
  lemma {:induction false} InsertDescSorted(s: seq<(string, nat)>, x: (string, nat))
    requires SortedDesc(s)
    ensures SortedDesc(InsertDesc(s, x))
  {
    if s != [] && s[0].1 >= x.1 {
      var rest := InsertDesc(s[1..], x);
      InsertDescSorted(s[1..], x);
      InsertDescBounded(s[1..], x, s[0].1);
      assert InsertDesc(s, x) == [s[0]] + rest;
    }
  }

  /** Inserting an entry whose name is new keeps the names distinct. */
  lemma {:induction false} InsertKeepsDistinct(s: seq<(string, nat)>, x: (string, nat))
    requires DistinctNames(s)
    requires forall k :: 0 <= k < |s| ==> s[k].0 != x.0
    ensures DistinctNames(InsertDesc(s, x))
  {
    if s != [] && s[0].1 >= x.1 {
      var rest := InsertDesc(s[1..], x);
      InsertKeepsDistinct(s[1..], x);
      InsertDescPermutes(s[1..], x);
      forall k | 0 <= k < |rest|
        ensures rest[k].0 != s[0].0
      {
        assert rest[k] in multiset(s[1..]) + multiset{x};
        if rest[k] != x {
          var a :| 0 <= a < |s[1..]| && s[1..][a] == rest[k];
          assert s[a + 1] == rest[k];
        }
      }
      assert InsertDesc(s, x) == [s[0]] + rest;
    }
  }

  /** Inserting the next entry into the sorted prefix keeps it sorted, a permutation of the longer prefix, and distinct. */
  lemma InsertionStep(items: seq<(string, nat)>, i: nat, sorted: seq<(string, nat)>)
    requires i < |items|
    requires SortedDesc(sorted) && multiset(sorted) == multiset(items[..i])
    requires DistinctNames(items) ==> DistinctNames(sorted)
    ensures SortedDesc(InsertDesc(sorted, items[i]))
    ensures multiset(InsertDesc(sorted, items[i])) == multiset(items[..i + 1])
    ensures DistinctNames(items) ==> DistinctNames(InsertDesc(sorted, items[i]))
  {
    if DistinctNames(items) {
      forall k | 0 <= k < |sorted|
        ensures sorted[k].0 != items[i].0
      {
        assert sorted[k] in multiset(items[..i]);
        var a :| 0 <= a < i && items[..i][a] == sorted[k];
        assert items[a] == sorted[k];
      }
      InsertKeepsDistinct(sorted, items[i]);
    }
    InsertDescSorted(sorted, items[i]);
    InsertDescPermutes(sorted, items[i]);
    assert items[..i + 1] == items[..i] + [items[i]];
  }

  /**
   * `sorted(counter.items(), key=count, reverse=True)`: the same entries, by count from the
   * largest down.
   */
  method SortByCountDesc(items: seq<(string, nat)>) returns (sorted: seq<(string, nat)>)
    ensures SortedDesc(sorted)
    ensures multiset(sorted) == multiset(items)
    ensures DistinctNames(items) ==> DistinctNames(sorted)
  {
    sorted := [];
    var i := 0;
    while i < |items|
      invariant 0 <= i <= |items|
      invariant SortedDesc(sorted)
      invariant multiset(sorted) == multiset(items[..i])
      invariant DistinctNames(items) ==> DistinctNames(sorted)
    {
      InsertionStep(items, i, sorted);
      sorted := InsertDesc(sorted, items[i]);
      i := i + 1;
    }
    assert items[..i] == items;
  }

  /** Reordering the counted entries keeps each one a name with its number of occurrences. */
  lemma SortedKeepsCounts(names: seq<string>, items: seq<(string, nat)>, sorted: seq<(string, nat)>)
    requires forall i :: 0 <= i < |items| ==> items[i].0 in names && items[i].1 == Count(names, items[i].0)
    requires multiset(sorted) == multiset(items)
    ensures forall i :: 0 <= i < |sorted| ==> sorted[i].0 in names && sorted[i].1 == Count(names, sorted[i].0)
  {
    forall i | 0 <= i < |sorted|
      ensures sorted[i].0 in names && sorted[i].1 == Count(names, sorted[i].0)
    {
      assert sorted[i] in multiset(items);
    }
  }

  /**
   * A name of `names` missing from the first entries of the sorted counts lies further down, so
   * the cut was taken at the chart size and the name counts no more than the last one kept.
   */
  lemma LeftOffIsSmaller(names: seq<string>, items: seq<(string, nat)>, sorted: seq<(string, nat)>,
                         chart: seq<(string, nat)>)
    requires forall i :: 0 <= i < |items| ==> items[i].1 == Count(names, items[i].0)
    requires forall x :: x in names ==> exists i :: 0 <= i < |items| && items[i].0 == x
    requires multiset(sorted) == multiset(items) && SortedDesc(sorted)
    requires chart == (if |sorted| <= ChartSize then sorted else sorted[..ChartSize])
    ensures forall x :: x in names && (forall i :: 0 <= i < |chart| ==> chart[i].0 != x) ==>
              |chart| == ChartSize && Count(names, x) <= chart[ChartSize - 1].1
  {
    forall x | x in names && (forall i :: 0 <= i < |chart| ==> chart[i].0 != x)
      ensures |chart| == ChartSize && Count(names, x) <= chart[ChartSize - 1].1
    {
      var k :| 0 <= k < |items| && items[k].0 == x;
      assert items[k] in multiset(sorted);
      var j :| 0 <= j < |sorted| && sorted[j] == items[k];
      assert j >= |chart|;
    }
  }

  /** The most shown chart entries. */
  const ChartSize: nat := 20

  /**
   * The chart data: at most 20 (name, count) entries, counts from the largest down, each count
   * the name's number of occurrences, names distinct; and a name left off the chart occurs no
   * more often than the last name shown, which can only happen when all 20 places are taken.
   */
  method TopCounts(names: seq<string>) returns (chart: seq<(string, nat)>)
    ensures |chart| <= ChartSize
    ensures SortedDesc(chart)
    ensures forall i :: 0 <= i < |chart| ==> chart[i].0 in names && chart[i].1 == Count(names, chart[i].0)
    ensures DistinctNames(chart)
    ensures forall x :: x in names && (forall i :: 0 <= i < |chart| ==> chart[i].0 != x) ==>
              |chart| == ChartSize && Count(names, x) <= chart[ChartSize - 1].1
  {
    var items := CountTags(names);
    var sorted := SortByCountDesc(items);
    chart := if |sorted| <= ChartSize then sorted else sorted[..ChartSize];
    SortedKeepsCounts(names, items, sorted);
    LeftOffIsSmaller(names, items, sorted, chart);
  }

}
