/** The conference list page: the search and date-range filter, the
    grouping of the filtered conferences by date, and the dates in
    ascending order. Dates are compared as their `yyyy-MM-dd` keys. */
module ConferenceList {
  import opened Wrappers
  import opened Strings
  import opened Lists
  import opened Sorting
  import opened MockStore

  /** The case-insensitive search over topic, room and details. */
  predicate MatchesSearch(c: Conference, query: string) {
    ContainsIgnoreCase(c.fields.topic, query)
    || (c.fields.room.Some? && ContainsIgnoreCase(c.fields.room.value, query))
    || (c.fields.detail.Some? && ContainsIgnoreCase(c.fields.detail.value, query))
  }

  /** The inclusive date range; an empty bound sets no limit. */
  predicate InRange(c: Conference, startDate: string, endDate: string) {
    (startDate == "" || LexLe(startDate, c.fields.date))
    && (endDate == "" || LexLe(c.fields.date, endDate))
  }

  function Passes(query: string, startDate: string, endDate: string): Conference -> bool {
    (c: Conference) => MatchesSearch(c, query) && InRange(c, startDate, endDate)
  }

  /** `filteredConferences`: the conferences passing both tests, in their
      order. */
  function FilterConferences(cs: seq<Conference>, query: string, startDate: string, endDate: string)
    : (r: seq<Conference>)
    ensures forall c :: c in r <==> c in cs && MatchesSearch(c, query) && InRange(c, startDate, endDate)
    ensures IsSubsequence(r, cs)
  {
    FilterIsSubsequence(cs, Passes(query, startDate, endDate));
    Filter(cs, Passes(query, startDate, endDate))
  }

  /** With no search and no dates every conference is listed. */
  lemma NoFiltersKeepAll(cs: seq<Conference>)
    ensures FilterConferences(cs, "", "", "") == cs
  {
    forall k | 0 <= k < |cs| ensures Passes("", "", "")(cs[k]) {
      ContainsEmpty(cs[k].fields.topic);
    }
    FilterAll(cs, Passes("", "", ""));
  }

  /** Both bounds are inclusive: a conference on the boundary day is kept
      by the dates. */
  lemma BoundsInclusive(c: Conference)
    ensures InRange(c, c.fields.date, c.fields.date)
  {
    LexCompareZero(c.fields.date, c.fields.date);
  }

  /** A range whose start is after its end keeps nothing. */
  lemma EmptyRange(c: Conference, startDate: string, endDate: string)
    requires startDate != "" && endDate != "" && !LexLe(startDate, endDate)
    ensures !InRange(c, startDate, endDate)
  {
    if InRange(c, startDate, endDate) {
      LexLeTransitive(startDate, c.fields.date, endDate);
    }
  }

  // ---------------------------------------------------------------------
  // Grouping by date

  function OnDate(date: string): Conference -> bool {
    (c: Conference) => c.fields.date == date
  }

  /** The dates the conferences fall on. */
  function Dates(cs: seq<Conference>): set<string> {
    if cs == [] then {} else Dates(cs[..|cs| - 1]) + {cs[|cs| - 1].fields.date}
  }

  /** The conferences on `date`, in their order. */
  function OfDate(cs: seq<Conference>, date: string): seq<Conference> {
    if cs == [] then []
    else OfDate(cs[..|cs| - 1], date) + (if cs[|cs| - 1].fields.date == date then [cs[|cs| - 1]] else [])
  }

  /** A date is listed iff some conference falls on it, and its group holds
      exactly the conferences on it. */
  lemma {:induction false} DatesAndGroups(cs: seq<Conference>, date: string)
    ensures date in Dates(cs) <==> exists c :: c in cs && c.fields.date == date
    ensures forall c :: c in OfDate(cs, date) <==> c in cs && c.fields.date == date
    ensures date !in Dates(cs) ==> OfDate(cs, date) == []
  {
    if cs != [] {
      var init, last := cs[..|cs| - 1], cs[|cs| - 1];
      DatesAndGroups(init, date);
      assert cs == init + [last];
      assert forall c :: c in cs <==> c in init || c == last;
    }
  }

  /** `OfDate` is the date filter. */
  lemma {:induction false} OfDateIsFilter(cs: seq<Conference>, date: string)
    ensures OfDate(cs, date) == Filter(cs, OnDate(date))
  {
    if cs != [] {
      var init, last := cs[..|cs| - 1], cs[|cs| - 1];
      OfDateIsFilter(init, date);
      assert cs == init + [last];
      FilterConcat(init, [last], OnDate(date));
      FilterSingleton(last, OnDate(date));
    }
  }

  /** `groups` and `keys` are the grouping of `cs`: a group per date, each
      holding that date's conferences in order, and each date listed once. */
  ghost predicate GroupingOf(cs: seq<Conference>, groups: map<string, seq<Conference>>, keys: seq<string>) {
    && groups.Keys == Dates(cs)
    && (forall d :: d in groups ==> groups[d] == OfDate(cs, d))
    && (forall d :: d in keys <==> d in groups)
    && (forall i, j :: 0 <= i < j < |keys| ==> keys[i] != keys[j])
  }

  /** One step of the `reduce`: creating the date's list if needed, then
      pushing onto it, groups one more conference. */
  lemma GroupStep(cs: seq<Conference>, c: Conference, groups: map<string, seq<Conference>>, keys: seq<string>)
    requires GroupingOf(cs, groups, keys)
    ensures var d := c.fields.date;
      var g := if d in groups then groups else groups[d := []];
      var k := if d in groups then keys else keys + [d];
      GroupingOf(cs + [c], g[d := g[d] + [c]], k)
  {
    var d := c.fields.date;
    var cs' := cs + [c];
    assert cs'[..|cs'| - 1] == cs;
    assert Dates(cs') == Dates(cs) + {d};
    assert forall e :: OfDate(cs', e) == OfDate(cs, e) + (if d == e then [c] else []);
    if d !in groups {
      DatesAndGroups(cs, d);
    }
  }

  /** `groupedConferences`: the `reduce` that pushes each conference onto
      the list of its date, creating the list on its date's first
      conference. `keys` is the order the dates were first met, the order
      `Object.keys` lists them in. */
  method GroupByDate(cs: seq<Conference>) returns (groups: map<string, seq<Conference>>, keys: seq<string>)
    ensures GroupingOf(cs, groups, keys)
  {
    groups := map[];
    keys := [];
    ghost var done: seq<Conference> := [];
    var k := 0;
    while k < |cs|
      invariant k <= |cs| && done == cs[..k]
      invariant GroupingOf(done, groups, keys)
    {
      var c := cs[k];
      var dateKey := c.fields.date;
      GroupStep(done, c, groups, keys);
      if dateKey !in groups {
        groups := groups[dateKey := []];
        keys := keys + [dateKey];
      }
      groups := groups[dateKey := groups[dateKey] + [c]];
      done := done + [c];
      k := k + 1;
    }
    assert done == cs;
  }

  /** Every conference lands in the group of its own date and in no other,
      and each group keeps the order of the list. */
  lemma GroupsPartition(cs: seq<Conference>, groups: map<string, seq<Conference>>, keys: seq<string>,
                        c: Conference, d: string)
    requires GroupingOf(cs, groups, keys)
    requires c in cs
    ensures c.fields.date in groups && c in groups[c.fields.date]
    ensures d in groups && c in groups[d] ==> d == c.fields.date
    ensures d in groups ==> groups[d] == Filter(cs, OnDate(d)) && IsSubsequence(groups[d], cs)
  {
    DatesAndGroups(cs, c.fields.date);
    DatesAndGroups(cs, d);
    OfDateIsFilter(cs, d);
    FilterIsSubsequence(cs, OnDate(d));
  }

  function ByKey(): (string, string) -> bool {
    (a: string, b: string) => LexLe(a, b)
  }

  lemma ByKeyIsTotalPreorder(s: seq<string>)
    ensures TotalPreorderOn(s, ByKey())
  {
    forall a, b | a in s && b in s ensures ByKey()(a, b) || ByKey()(b, a) {
      LexLeTotal(a, b);
    }
    forall a, b, c | a in s && b in s && c in s && ByKey()(a, b) && ByKey()(b, c)
      ensures ByKey()(a, c)
    {
      LexLeTransitive(a, b, c);
    }
  }

  /** `sortedDates`: the group keys, each once, in strictly ascending
      order. */
  function SortedDates(keys: seq<string>): (r: seq<string>)
    requires forall i, j :: 0 <= i < j < |keys| ==> keys[i] != keys[j]
    ensures multiset(r) == multiset(keys)
    ensures forall x :: x in r <==> x in keys
    ensures forall i, j :: 0 <= i < j < |r| ==> LexLe(r[i], r[j]) && r[i] != r[j]
  {
    ByKeyIsTotalPreorder(keys);
    var r := Sort(keys, ByKey());
    assert forall x :: x in r <==> x in multiset(keys);
    DistinctPermutation(keys, r);
    r
  }

  /** A permutation of a list without repeats has none either. */
  lemma DistinctPermutation(keys: seq<string>, r: seq<string>)
    requires forall i, j :: 0 <= i < j < |keys| ==> keys[i] != keys[j]
    requires multiset(r) == multiset(keys)
    ensures forall i, j :: 0 <= i < j < |r| ==> r[i] != r[j]
  {
    forall i, j | 0 <= i < j < |r| ensures r[i] != r[j] {
      DistinctMultiset(keys, r, i, j);
    }
  }

  lemma DistinctMultiset(keys: seq<string>, r: seq<string>, i: int, j: int)
    requires forall i, j :: 0 <= i < j < |keys| ==> keys[i] != keys[j]
    requires multiset(r) == multiset(keys)
    requires 0 <= i < j < |r|
    ensures r[i] != r[j]
  {
    if r[i] == r[j] {
      var x := r[i];
      assert multiset(r)[x] >= 2 by {
        var before := r[..j];
        assert r == before + r[j..];
        assert multiset(before)[x] >= 1 by { assert before[i] == x; }
        assert multiset(r[j..])[x] >= 1 by { assert r[j..][0] == x; }
      }
      DistinctCountsOnce(keys, x);
    }
  }

  /** In a list without repeats each element occurs once. */
  lemma {:induction false} DistinctCountsOnce(keys: seq<string>, x: string)
    requires forall i, j :: 0 <= i < j < |keys| ==> keys[i] != keys[j]
    ensures multiset(keys)[x] <= 1
  {
    if keys != [] {
      var t := keys[1..];
      assert keys == [keys[0]] + t;
      DistinctCountsOnce(t, x);
      if keys[0] == x {
        assert x !in t by {
          forall k | 0 <= k < |t| ensures t[k] != x {
            assert t[k] == keys[k + 1];
          }
        }
      }
    }
  }

  // ---------------------------------------------------------------------
  // The filter controls

  class ConferenceFilters {
    var searchQuery: string
    var startDate: string
    var endDate: string

    constructor ()
      ensures searchQuery == "" && startDate == "" && endDate == ""
    {
      searchQuery, startDate, endDate := "", "", "";
    }

    method SetSearchQuery(q: string)
      modifies this`searchQuery
      ensures searchQuery == q
    {
      searchQuery := q;
    }

    method SetStartDate(d: string)
      modifies this`startDate
      ensures startDate == d
    {
      startDate := d;
    }

    method SetEndDate(d: string)
      modifies this`endDate
      ensures endDate == d
    {
      endDate := d;
    }

    /** `clearFilters`: back to listing everything. */
    method ClearFilters()
      modifies this
      ensures searchQuery == "" && startDate == "" && endDate == ""
    {
      searchQuery, startDate, endDate := "", "", "";
    }

    function Filtered(cs: seq<Conference>): (r: seq<Conference>)
      reads this
      ensures IsSubsequence(r, cs)
    {
      FilterConferences(cs, searchQuery, startDate, endDate)
    }
  }

  /** After `clearFilters` the page lists every conference. */
  method ClearShowsAll(f: ConferenceFilters, cs: seq<Conference>) returns (shown: seq<Conference>)
    modifies f
    ensures shown == cs
  {
    f.ClearFilters();
    shown := f.Filtered(cs);
    NoFiltersKeepAll(cs);
  }
}
