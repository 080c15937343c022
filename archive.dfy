/**
 * The archive page: entries grouped by creation year, each group ordered by headword, and a
 * timeline over a fixed list of years in which every year shows its cards or a placeholder.
 */
module Archive {
  import opened Results
  import opened Collections
  import opened SlangTypes
  import opened TermOrder

  // ---------------------------------------------------------------------------------------------
  // Grouping by year
  // ---------------------------------------------------------------------------------------------

  /** The year an entry was created in. */
  function Year(e: SlangEntry): int {
    e.createdAt.year
  }

  /** The years that occur in the data. */
  function YearsOf(data: seq<SlangEntry>): set<int> {
    set i | 0 <= i < |data| :: Year(data[i])
  }

  /** The entries of one year, in data order: what pushing the entries one by one leaves in the
      list of that year. */
  function Bucket(data: seq<SlangEntry>, y: int): (r: seq<SlangEntry>)
    ensures forall e :: e in r <==> e in data && Year(e) == y
  {
    Group(data, Year, y)
  }

  /** What `slangByYear` computes: one bucket per year that occurs, ordered by headword. */
  function GroupByYear(data: seq<SlangEntry>): map<int, seq<SlangEntry>> {
    map y | y in YearsOf(data) :: SortByTerm(Bucket(data, y))
  }

  /** A year that does not occur has an empty bucket. */
  lemma EmptyBucket(data: seq<SlangEntry>, y: int)
    requires y !in YearsOf(data)
    ensures Bucket(data, y) == []
  {
    forall i | 0 <= i < |data| ensures Year(data[i]) != y {
      assert Year(data[i]) in YearsOf(data);
    }
    GroupNone(data, Year, y);
  }

  /** One more entry: its year joins the years that occur. */
  lemma YearsStep(data: seq<SlangEntry>, i: nat)
    requires i < |data|
    ensures YearsOf(data[..i + 1]) == YearsOf(data[..i]) + {Year(data[i])}
  {
    var prefix := data[..i + 1];
    forall y | y in YearsOf(prefix) ensures y in YearsOf(data[..i]) + {Year(data[i])} {
      var k :| 0 <= k < |prefix| && Year(prefix[k]) == y;
      if k < i {
        assert data[..i][k] == prefix[k];
      }
    }
    forall y | y in YearsOf(data[..i]) ensures y in YearsOf(prefix) {
      var k :| 0 <= k < i && Year(data[..i][k]) == y;
      assert prefix[k] == data[..i][k];
    }
    assert Year(prefix[i]) in YearsOf(prefix);
  }

  /** One more entry joins the end of its year's bucket and no other. */
  lemma BucketStep(data: seq<SlangEntry>, i: nat, y: int)
    requires i < |data|
    ensures Bucket(data[..i + 1], y) == Bucket(data[..i], y) + (if Year(data[i]) == y then [data[i]] else [])
  {
    assert data[..i + 1] == data[..i] + [data[i]];
    GroupAppend(data[..i], data[i], Year, y);
  }

  /** The buckets of the years that occur, before sorting. */
  function BucketsByYear(data: seq<SlangEntry>): map<int, seq<SlangEntry>> {
    map y | y in YearsOf(data) :: Bucket(data, y)
  }

  /** One more entry pushed onto the lists of a prefix: the lists are those of the longer prefix. */
  lemma PushedBuckets(data: seq<SlangEntry>, i: nat, before: map<int, seq<SlangEntry>>, after: map<int, seq<SlangEntry>>)
    requires i < |data|
    requires before.Keys == YearsOf(data[..i])
    requires forall y :: y in before ==> before[y] == Bucket(data[..i], y)
    requires var y := Year(data[i]); after == before[y := (if y in before then before[y] else []) + [data[i]]]
    ensures after.Keys == YearsOf(data[..i + 1])
    ensures forall y :: y in after ==> after[y] == Bucket(data[..i + 1], y)
  {
    YearsStep(data, i);
    forall y | y in after ensures after[y] == Bucket(data[..i + 1], y) {
      BucketStep(data, i, y);
      if y == Year(data[i]) && y !in before {
        EmptyBucket(data[..i], y);
      }
    }
  }

  /** Lists keyed by exactly the years that occur, each holding its year's bucket, are the
      buckets by year. */
  lemma AllBuckets(data: seq<SlangEntry>, grouped: map<int, seq<SlangEntry>>)
    requires grouped.Keys == YearsOf(data)
    requires forall y :: y in grouped ==> grouped[y] == Bucket(data, y)
    ensures grouped == BucketsByYear(data)
  {
  }

  /** `slangByYear`: pushes every entry onto the list for its year, creating the list on first use,
      then sorts every list by headword. */
  method SlangByYear(data: seq<SlangEntry>) returns (grouped: map<int, seq<SlangEntry>>)
    ensures grouped == GroupByYear(data)
  {
    var unsorted, keys := PushByYear(data);
    grouped := SortEachGroup(unsorted, keys, SortByTerm);
    SortedBuckets(data, grouped);
  }

  /** The buckets by year, each sorted by headword, are what `slangByYear` computes. */
  lemma SortedBuckets(data: seq<SlangEntry>, grouped: map<int, seq<SlangEntry>>)
    requires grouped.Keys == YearsOf(data)
    requires forall y :: y in grouped ==> grouped[y] == SortByTerm(Bucket(data, y))
    ensures grouped == GroupByYear(data)
  {
  }

  /** The first pass of `slangByYear`: every entry pushed onto the list for its year; `keys` lists
      each year once, as `Object.keys` of the result does. */
  method PushByYear(data: seq<SlangEntry>) returns (grouped: map<int, seq<SlangEntry>>, keys: seq<int>)
    ensures grouped == BucketsByYear(data)
    ensures grouped.Keys == YearsOf(data)
    ensures forall y :: y in grouped ==> grouped[y] == Bucket(data, y)
    ensures NoDuplicates(keys)
    ensures forall k :: 0 <= k < |keys| ==> keys[k] in grouped
    ensures forall y :: y in grouped ==> y in keys
  {
    grouped := map[];
    keys := [];
    var i := 0;
    while i < |data|
      invariant 0 <= i <= |data|
      invariant grouped.Keys == YearsOf(data[..i])
      invariant forall y :: y in grouped ==> grouped[y] == Bucket(data[..i], y)
      invariant NoDuplicates(keys)
      invariant forall k :: 0 <= k < |keys| ==> keys[k] in grouped
      invariant forall y :: y in grouped ==> y in keys
    {
      ghost var before := grouped;
      grouped, keys := PushEntry(grouped, keys, data[i]);
      PushedBuckets(data, i, before, grouped);
      i := i + 1;
    }
    assert data[..|data|] == data;
    AllBuckets(data, grouped);
  }

  /** The callback of the first pass: creates the list of the entry's year on first use, records
      the new key, and pushes the entry onto the list. */
  method PushEntry(grouped: map<int, seq<SlangEntry>>, keys: seq<int>, slang: SlangEntry)
    returns (grouped': map<int, seq<SlangEntry>>, keys': seq<int>)
    requires NoDuplicates(keys)
    requires forall k :: 0 <= k < |keys| ==> keys[k] in grouped
    requires forall y :: y in grouped ==> y in keys
    ensures var y := Year(slang); grouped' == grouped[y := (if y in grouped then grouped[y] else []) + [slang]]
    ensures NoDuplicates(keys')
    ensures forall k :: 0 <= k < |keys'| ==> keys'[k] in grouped'
    ensures forall y :: y in grouped' ==> y in keys'
  {
    var year := Year(slang);
    grouped', keys' := grouped, keys;
    if year !in grouped' {
      grouped' := grouped'[year := []];
      NoDuplicatesAppend(keys', year);
      keys' := keys' + [year];
    }
    grouped' := grouped'[year := grouped'[year] + [slang]];
  }

  /** The second pass of `slangByYear`: the list of every year in `keys` replaced by its sorted
      copy, where `sort` is `Array.prototype.sort` with the comparator the page passes. */
  method SortEachGroup(unsorted: map<int, seq<SlangEntry>>, keys: seq<int>, sort: seq<SlangEntry> -> seq<SlangEntry>)
    returns (grouped: map<int, seq<SlangEntry>>)
    requires NoDuplicates(keys)
    requires forall k :: 0 <= k < |keys| ==> keys[k] in unsorted
    requires forall y :: y in unsorted ==> y in keys
    ensures grouped.Keys == unsorted.Keys
    ensures forall y :: y in grouped ==> grouped[y] == sort(unsorted[y])
  {
    grouped := unsorted;
    var i := 0;
    while i < |keys|
      invariant 0 <= i <= |keys|
      invariant grouped.Keys == unsorted.Keys
      invariant forall k :: 0 <= k < |keys| ==>
        && keys[k] in grouped
        && grouped[keys[k]] == if k < i then sort(unsorted[keys[k]]) else unsorted[keys[k]]
    {
      var year := keys[i];
      grouped := grouped[year := sort(grouped[year])];
      i := i + 1;
    }
    forall y | y in grouped ensures grouped[y] == sort(unsorted[y]) {
      var k :| 0 <= k < |keys| && keys[k] == y;
    }
  }

  /** Every entry lands in the group of its own year and in no other. */
  lemma EntryInOwnYear(data: seq<SlangEntry>, e: SlangEntry, y: int)
    ensures (y in GroupByYear(data) && e in GroupByYear(data)[y]) <==> (e in data && Year(e) == y)
  {
    if e in data && Year(e) == y {
      var k :| 0 <= k < |data| && data[k] == e;
      assert y in YearsOf(data);
    }
    if y in GroupByYear(data) {
      SortByTermSortsAndPermutes(Bucket(data, y));
      assert multiset(GroupByYear(data)[y]) == multiset(Bucket(data, y));
      assert e in GroupByYear(data)[y] <==> e in multiset(Bucket(data, y));
    }
  }

  /** The groups laid end to end in the order of `years`. */
  function Concatenation(g: map<int, seq<SlangEntry>>, years: seq<int>): seq<SlangEntry> {
    if years == [] then []
    else (if years[0] in g then g[years[0]] else []) + Concatenation(g, years[1..])
  }

  /** The sorted groups hold, year by year, the same entries as the buckets. */
  lemma {:induction false} GroupsPermuteBuckets(data: seq<SlangEntry>, years: seq<int>)
    requires forall y :: y in years ==> y in YearsOf(data)
    ensures multiset(Concatenation(GroupByYear(data), years)) == multiset(Groups(data, Year, years))
  {
    if years != [] {
      SortByTermSortsAndPermutes(Bucket(data, years[0]));
      GroupsPermuteBuckets(data, years[1..]);
    }
  }

  /** The groups partition the data: laid end to end over a duplicate-free list of exactly the years
      that occur, they hold every entry exactly once, so their sizes sum to the number of entries. */
  lemma GroupsPartitionData(data: seq<SlangEntry>, years: seq<int>)
    requires NoDuplicates(years)
    requires forall y :: y in years <==> y in YearsOf(data)
    ensures multiset(Concatenation(GroupByYear(data), years)) == multiset(data)
    ensures |Concatenation(GroupByYear(data), years)| == |data|
  {
    forall k | 0 <= k < |data| ensures Year(data[k]) in years {
      assert Year(data[k]) in YearsOf(data);
    }
    GroupsPartition(data, Year, years);
    GroupsPermuteBuckets(data, years);
    assert |multiset(Concatenation(GroupByYear(data), years))| == |multiset(data)|;
  }

  // ---------------------------------------------------------------------------------------------
  // The timeline
  // ---------------------------------------------------------------------------------------------

  /** The years the timeline shows, newest first. */
  const TimelineYears: seq<int> := [2025, 2024, 2023, 2022, 2021, 2020]

  /** What an archive card shows: the headword, the definition, the freshness meter, at most two
      category badges, and a region badge for entries outside `Global`. */
  datatype ArchiveCard = ArchiveCard(
    id: string,
    term: string,
    definition: string,
    freshness: Freshness,
    categoryBadges: seq<Category>,
    regionBadge: Option<Region>)

  /** One year of the timeline: its cards, or the placeholder when it has none; a separator follows
      every year but the last. */
  datatype YearSection =
    | Placeholder(year: int, separator: bool)
    | Cards(year: int, cards: seq<ArchiveCard>, separator: bool)

  /** The card of one entry. */
  function CardOf(e: SlangEntry): (c: ArchiveCard)
    ensures |c.categoryBadges| <= 2
    ensures c.categoryBadges <= e.categories
    ensures |c.categoryBadges| == if |e.categories| < 2 then |e.categories| else 2
    ensures c.regionBadge.Some? <==> e.region != Global
    ensures c.regionBadge.Some? ==> c.regionBadge.value == e.region
    ensures c.term == e.term && c.id == e.id
  {
    ArchiveCard(
      e.id, e.term, e.definition, e.freshness,
      if |e.categories| < 2 then e.categories else e.categories[..2],
      if e.region != Global then Some(e.region) else None)
  }

  /** The section of one year. */
  function Section(g: map<int, seq<SlangEntry>>, year: int): YearSection {
    var separator := year != TimelineYears[|TimelineYears| - 1];
    if year !in g || |g[year]| == 0 then Placeholder(year, separator)
    else Cards(year, seq(|g[year]|, k requires 0 <= k < |g[year]| => CardOf(g[year][k])), separator)
  }

  /** The timeline of the archive page. */
  function Timeline(g: map<int, seq<SlangEntry>>): (r: seq<YearSection>)
    ensures |r| == |TimelineYears|
  {
    seq(|TimelineYears|, i requires 0 <= i < |TimelineYears| => Section(g, TimelineYears[i]))
  }

  /** The timeline runs from 2025 down to 2020, strictly descending; a year shows the placeholder
      exactly when it has no entries, otherwise one card per entry in group order; only 2020 has no
      separator after it. */
  lemma TimelineShape(g: map<int, seq<SlangEntry>>)
    ensures var t := Timeline(g);
      && t[0].year == 2025 && t[|t| - 1].year == 2020
      && (forall i, j :: 0 <= i < j < |t| ==> t[i].year > t[j].year)
      && (forall i :: 0 <= i < |t| ==> (t[i].Placeholder? <==> t[i].year !in g || g[t[i].year] == []))
      && (forall i :: 0 <= i < |t| && t[i].Cards? ==>
            |t[i].cards| == |g[t[i].year]| &&
            forall k :: 0 <= k < |t[i].cards| ==> t[i].cards[k] == CardOf(g[t[i].year][k]))
      && (forall i :: 0 <= i < |t| ==> (t[i].separator <==> i < |t| - 1))
  {
  }

  /** A year outside 2020 to 2025 is grouped but never shown. */
  lemma OtherYearsHidden(data: seq<SlangEntry>, e: SlangEntry)
    requires e in data && Year(e) !in TimelineYears
    ensures Year(e) in GroupByYear(data) && e in GroupByYear(data)[Year(e)]
    ensures forall i :: 0 <= i < |Timeline(GroupByYear(data))| ==> Timeline(GroupByYear(data))[i].year != Year(e)
  {
    EntryInOwnYear(data, e, Year(e));
  }
}
