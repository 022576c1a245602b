// The proxy page's chart data: per-day maps of browsers, content types,
// countries and response statuses are merged across the whole date range into
// one entry per key, and the countries are ranked by their request count.

module ProxyCharts {
  import opened Grouping

  datatype BrowserEntry = BrowserEntry(pageViews: int, uaBrowserFamily: string)
  datatype BrowserDay = BrowserDay(date: string, browserMap: seq<BrowserEntry>)

  datatype ContentTypeEntry = ContentTypeEntry(bytes: int, edgeResponseContentTypeName: string, requests: int)
  datatype ContentTypeDay = ContentTypeDay(date: string, contentTypeMap: seq<ContentTypeEntry>)

  datatype CountryEntry = CountryEntry(bytes: int, clientCountryName: string, requests: int, threats: int)
  datatype CountryDay = CountryDay(date: string, countryMap: seq<CountryEntry>)

  datatype StatusEntry = StatusEntry(requests: int, edgeResponseStatus: int)
  datatype StatusDay = StatusDay(date: string, responseStatusMap: seq<StatusEntry>)

  // ---------------------------------------------------------------------
  // Flattening the days and projecting entries to rows
  // ---------------------------------------------------------------------

  /** All entries of all days, day by day (`flatMap`). */
  function Flatten<D, E>(days: seq<D>, entries: D -> seq<E>): seq<E>
    decreases |days|
  {
    if days == [] then [] else Flatten(days[..|days| - 1], entries) + entries(days[|days| - 1])
  }

  lemma FlattenSnoc<D, E>(days: seq<D>, i: nat, entries: D -> seq<E>)
    requires i < |days|
    ensures Flatten(days[..i + 1], entries) == Flatten(days[..i], entries) + entries(days[i])
  {
    assert days[..i + 1][..i] == days[..i];
  }

  /** The rows a reducer groups: one key and one amount per entry. */
  function Project<E, K>(es: seq<E>, key: E -> K, amount: E -> int): (rows: seq<Row<K>>)
    ensures |rows| == |es|
    ensures forall i :: 0 <= i < |es| ==> rows[i] == Row(key(es[i]), amount(es[i]))
  {
    seq(|es|, i requires 0 <= i < |es| => Row(key(es[i]), amount(es[i])))
  }

  lemma ProjectSnoc<E, K>(es: seq<E>, e: E, key: E -> K, amount: E -> int)
    ensures Project(es + [e], key, amount) == Project(es, key, amount) + [Row(key(e), amount(e))]
  {
  }

  function BrowserEntries(d: BrowserDay): seq<BrowserEntry> { d.browserMap }
  function BrowserKey(e: BrowserEntry): string { e.uaBrowserFamily }
  function PageViews(e: BrowserEntry): int { e.pageViews }

  function StatusEntries(d: StatusDay): seq<StatusEntry> { d.responseStatusMap }
  function StatusKey(e: StatusEntry): int { e.edgeResponseStatus }
  function StatusRequests(e: StatusEntry): int { e.requests }

  function CountryEntries(d: CountryDay): seq<CountryEntry> { d.countryMap }
  function CountryKey(e: CountryEntry): string { e.clientCountryName }
  function CountryRequests(e: CountryEntry): int { e.requests }

  function ContentEntries(d: ContentTypeDay): seq<ContentTypeEntry> { d.contentTypeMap }
  function ContentKey(e: ContentTypeEntry): string { e.edgeResponseContentTypeName }
  function ContentBytes(e: ContentTypeEntry): int { e.bytes }
  function ContentRequests(e: ContentTypeEntry): int { e.requests }

  // ---------------------------------------------------------------------
  // Browser and response-status pies: `reduce` over days, `forEach` over entries
  // ---------------------------------------------------------------------

  /**
   * The inner `forEach` of the nested reducer: one find-or-push step per
   * entry, continuing the groups built from the entries seen before.
   */
  method AccumulateEntries<E, K(==)>(acc: seq<Group<K>>, ghost before: seq<E>, es: seq<E>, key: E -> K, amount: E -> int)
    returns (next: seq<Group<K>>)
    requires acc == GroupBy(Project(before, key, amount))
    ensures next == GroupBy(Project(before + es, key, amount))
  {
    next := acc;
    assert before + es[..0] == before;
    for j := 0 to |es|
      invariant next == GroupBy(Project(before + es[..j], key, amount))
    {
      var r := Row(key(es[j]), amount(es[j]));
      assert before + es[..j + 1] == (before + es[..j]) + [es[j]];
      ProjectSnoc(before + es[..j], es[j], key, amount);
      GroupBySnoc(Project(before + es[..j], key, amount), r);
      next := Accumulate(next, r);
    }
    assert es[..|es|] == es;
  }

  /**
   * The nested reducer the browser and status pies share: for every day, for
   * every entry of that day, one find-or-push step.
   */
  method GroupDays<D, E, K(==)>(days: seq<D>, entries: D -> seq<E>, key: E -> K, amount: E -> int)
    returns (acc: seq<Group<K>>)
    ensures acc == GroupBy(Project(Flatten(days, entries), key, amount))
  {
    acc := [];
    for i := 0 to |days|
      invariant acc == GroupBy(Project(Flatten(days[..i], entries), key, amount))
    {
      acc := AccumulateEntries(acc, Flatten(days[..i], entries), entries(days[i]), key, amount);
      FlattenSnoc(days, i, entries);
    }
    assert days[..|days|] == days;
  }

  /** `browserData`: page views per browser family, in first-seen order. */
  method BrowserData(days: seq<BrowserDay>) returns (data: seq<Group<string>>)
    ensures data == GroupBy(Project(Flatten(days, BrowserEntries), BrowserKey, PageViews))
  {
    data := GroupDays(days, BrowserEntries, BrowserKey, PageViews);
  }

  /** `responseStatusData`: requests per response status code, in first-seen order. */
  method ResponseStatusData(days: seq<StatusDay>) returns (data: seq<Group<int>>)
    ensures data == GroupBy(Project(Flatten(days, StatusEntries), StatusKey, StatusRequests))
  {
    data := GroupDays(days, StatusEntries, StatusKey, StatusRequests);
  }

  /** Every browser family of the input appears once, carrying the sum of its page views. */
  lemma BrowserDataSums(days: seq<BrowserDay>)
    ensures var rows := Project(Flatten(days, BrowserEntries), BrowserKey, PageViews);
            var data := GroupBy(rows);
            && DistinctKeys(data)
            && (forall e :: e in Flatten(days, BrowserEntries) ==> e.uaBrowserFamily in Keys(data))
            && (forall i :: 0 <= i < |data| ==> data[i].total == SumFor(rows, data[i].key))
            && Totals(data) == Sum(rows)
  {
    var es := Flatten(days, BrowserEntries);
    var rows := Project(es, BrowserKey, PageViews);
    GroupByOnePerKey(rows);
    GroupByTotals(rows);
    GroupByConserves(rows);
    forall e | e in es
      ensures e.uaBrowserFamily in Keys(GroupBy(rows))
    {
      var i :| 0 <= i < |es| && es[i] == e;
      assert RowKeys(rows)[i] == e.uaBrowserFamily;
    }
  }

  // ---------------------------------------------------------------------
  // Content-type pie: two amounts summed per key
  // ---------------------------------------------------------------------

  datatype ContentGroup = ContentGroup(name: string, bytes: int, requests: int)

  function AddContent(acc: seq<ContentGroup>, e: ContentTypeEntry): seq<ContentGroup> {
    if acc == [] then [ContentGroup(e.edgeResponseContentTypeName, e.bytes, e.requests)]
    else if acc[0].name == e.edgeResponseContentTypeName then
      [ContentGroup(e.edgeResponseContentTypeName, acc[0].bytes + e.bytes, acc[0].requests + e.requests)] + acc[1..]
    else [acc[0]] + AddContent(acc[1..], e)
  }

  function GroupContent(es: seq<ContentTypeEntry>): seq<ContentGroup>
    decreases |es|
  {
    if es == [] then [] else AddContent(GroupContent(es[..|es| - 1]), es[|es| - 1])
  }

  function BytesView(cs: seq<ContentGroup>): (gs: seq<Group<string>>)
    ensures |gs| == |cs|
    ensures forall i :: 0 <= i < |cs| ==> gs[i] == Group(cs[i].name, cs[i].bytes)
  {
    seq(|cs|, i requires 0 <= i < |cs| => Group(cs[i].name, cs[i].bytes))
  }

  function RequestsView(cs: seq<ContentGroup>): (gs: seq<Group<string>>)
    ensures |gs| == |cs|
    ensures forall i :: 0 <= i < |cs| ==> gs[i] == Group(cs[i].name, cs[i].requests)
  {
    seq(|cs|, i requires 0 <= i < |cs| => Group(cs[i].name, cs[i].requests))
  }

  lemma BytesViewCons(c: ContentGroup, cs: seq<ContentGroup>)
    ensures BytesView([c] + cs) == [Group(c.name, c.bytes)] + BytesView(cs)
  {
    assert forall i :: 0 < i <= |cs| ==> ([c] + cs)[i] == cs[i - 1];
  }

  lemma RequestsViewCons(c: ContentGroup, cs: seq<ContentGroup>)
    ensures RequestsView([c] + cs) == [Group(c.name, c.requests)] + RequestsView(cs)
  {
    assert forall i :: 0 < i <= |cs| ==> ([c] + cs)[i] == cs[i - 1];
  }

  /** Seen through its bytes, one content-type step is one group-by step on `bytes`. */
  lemma {:induction false} AddContentBytes(acc: seq<ContentGroup>, e: ContentTypeEntry)
    ensures BytesView(AddContent(acc, e)) == Add(BytesView(acc), Row(ContentKey(e), ContentBytes(e)))
    decreases |acc|
  {
    if acc != [] {
      var v := BytesView(acc);
      assert acc == [acc[0]] + acc[1..];
      BytesViewCons(acc[0], acc[1..]);
      assert v[0].key == acc[0].name && v[1..] == BytesView(acc[1..]);
      if acc[0].name == e.edgeResponseContentTypeName {
        var merged := ContentGroup(e.edgeResponseContentTypeName, acc[0].bytes + e.bytes, acc[0].requests + e.requests);
        BytesViewCons(merged, acc[1..]);
      } else {
        AddContentBytes(acc[1..], e);
        BytesViewCons(acc[0], AddContent(acc[1..], e));
      }
    }
  }

  /** Seen through its requests, one content-type step is one group-by step on `requests`. */
  lemma {:induction false} AddContentRequests(acc: seq<ContentGroup>, e: ContentTypeEntry)
    ensures RequestsView(AddContent(acc, e)) == Add(RequestsView(acc), Row(ContentKey(e), ContentRequests(e)))
    decreases |acc|
  {
    if acc != [] {
      var v := RequestsView(acc);
      assert acc == [acc[0]] + acc[1..];
      RequestsViewCons(acc[0], acc[1..]);
      assert v[0].key == acc[0].name && v[1..] == RequestsView(acc[1..]);
      if acc[0].name == e.edgeResponseContentTypeName {
        var merged := ContentGroup(e.edgeResponseContentTypeName, acc[0].bytes + e.bytes, acc[0].requests + e.requests);
        RequestsViewCons(merged, acc[1..]);
      } else {
        AddContentRequests(acc[1..], e);
        RequestsViewCons(acc[0], AddContent(acc[1..], e));
      }
    }
  }

  /**
   * Summing bytes and requests together is the same as grouping each amount on
   * its own: every content type gets the total bytes and total requests of its entries.
   */
  lemma {:induction false} GroupContentViews(es: seq<ContentTypeEntry>)
    ensures BytesView(GroupContent(es)) == GroupBy(Project(es, ContentKey, ContentBytes))
    ensures RequestsView(GroupContent(es)) == GroupBy(Project(es, ContentKey, ContentRequests))
    decreases |es|
  {
    if es != [] {
      var n := |es|;
      GroupContentViews(es[..n - 1]);
      AddContentBytes(GroupContent(es[..n - 1]), es[n - 1]);
      AddContentRequests(GroupContent(es[..n - 1]), es[n - 1]);
      assert es == es[..n - 1] + [es[n - 1]];
      ProjectSnoc(es[..n - 1], es[n - 1], ContentKey, ContentBytes);
      ProjectSnoc(es[..n - 1], es[n - 1], ContentKey, ContentRequests);
      GroupBySnoc(Project(es[..n - 1], ContentKey, ContentBytes), Row(ContentKey(es[n - 1]), ContentBytes(es[n - 1])));
      GroupBySnoc(Project(es[..n - 1], ContentKey, ContentRequests), Row(ContentKey(es[n - 1]), ContentRequests(es[n - 1])));
    }
  }

  lemma {:induction false} AddContentAt(acc: seq<ContentGroup>, e: ContentTypeEntry, i: nat)
    requires i <= |acc|
    requires forall j :: 0 <= j < i ==> acc[j].name != e.edgeResponseContentTypeName
    requires i < |acc| ==> acc[i].name == e.edgeResponseContentTypeName
    ensures i < |acc| ==>
              AddContent(acc, e) ==
              acc[i := ContentGroup(e.edgeResponseContentTypeName, acc[i].bytes + e.bytes, acc[i].requests + e.requests)]
    ensures i == |acc| ==> AddContent(acc, e) == acc + [ContentGroup(e.edgeResponseContentTypeName, e.bytes, e.requests)]
    decreases |acc|
  {
    if acc != [] && i > 0 {
      AddContentAt(acc[1..], e, i - 1);
      var g := if i < |acc| then ContentGroup(e.edgeResponseContentTypeName, acc[i].bytes + e.bytes, acc[i].requests + e.requests)
               else ContentGroup(e.edgeResponseContentTypeName, e.bytes, e.requests);
      if i < |acc| {
        assert acc[i := g] == [acc[0]] + acc[1..][i - 1 := g];
      } else {
        assert acc + [g] == [acc[0]] + (acc[1..] + [g]);
      }
    }
  }

  /** One content-type step as the source performs it: a linear `find`, then two `+=` or a `push`. */
  method AccumulateContent(acc: seq<ContentGroup>, e: ContentTypeEntry) returns (next: seq<ContentGroup>)
    ensures next == AddContent(acc, e)
  {
    var k := 0;
    while k < |acc| && acc[k].name != e.edgeResponseContentTypeName
      invariant 0 <= k <= |acc|
      invariant forall m :: 0 <= m < k ==> acc[m].name != e.edgeResponseContentTypeName
    {
      k := k + 1;
    }
    AddContentAt(acc, e, k);
    if k < |acc| {
      next := acc[k := ContentGroup(e.edgeResponseContentTypeName, acc[k].bytes + e.bytes, acc[k].requests + e.requests)];
    } else {
      next := acc + [ContentGroup(e.edgeResponseContentTypeName, e.bytes, e.requests)];
    }
  }

  lemma GroupContentSnoc(es: seq<ContentTypeEntry>, e: ContentTypeEntry)
    ensures GroupContent(es + [e]) == AddContent(GroupContent(es), e)
  {
    assert (es + [e])[..|es|] == es;
  }

  lemma GroupContentStep(before: seq<ContentTypeEntry>, es: seq<ContentTypeEntry>, j: nat)
    requires j < |es|
    ensures GroupContent(before + es[..j + 1]) == AddContent(GroupContent(before + es[..j]), es[j])
  {
    assert before + es[..j + 1] == (before + es[..j]) + [es[j]];
    GroupContentSnoc(before + es[..j], es[j]);
  }

  /** The inner `forEach` of `contentTypeData`: one content-type step per entry of one day. */
  method AccumulateDayContent(data: seq<ContentGroup>, ghost before: seq<ContentTypeEntry>, es: seq<ContentTypeEntry>)
    returns (next: seq<ContentGroup>)
    requires data == GroupContent(before)
    ensures next == GroupContent(before + es)
  {
    next := data;
    assert before + es[..0] == before;
    for j := 0 to |es|
      invariant next == GroupContent(before + es[..j])
    {
      GroupContentStep(before, es, j);
      next := AccumulateContent(next, es[j]);
    }
    assert es[..|es|] == es;
  }

  /** `contentTypeData`: bytes and requests summed per content type, in first-seen order. */
  method ContentTypeData(days: seq<ContentTypeDay>) returns (data: seq<ContentGroup>)
    ensures data == GroupContent(Flatten(days, ContentEntries))
  {
    data := [];
    for i := 0 to |days|
      invariant data == GroupContent(Flatten(days[..i], ContentEntries))
    {
      data := AccumulateDayContent(data, Flatten(days[..i], ContentEntries), days[i].contentTypeMap);
      FlattenSnoc(days, i, ContentEntries);
    }
    assert days[..|days|] == days;
  }

  // ---------------------------------------------------------------------
  // World map: requests per country, highest first
  // ---------------------------------------------------------------------

  predicate SortedDesc(gs: seq<Group<string>>) {
    forall i, j :: 0 <= i < j < |gs| ==> gs[i].total >= gs[j].total
  }

  /**
   * Inserting `x` into a list ranked highest first: it goes after every entry
   * whose total is at least its own, so ties keep their earlier order.
   */
  function InsertDesc(s: seq<Group<string>>, x: Group<string>): seq<Group<string>>
    decreases |s|
  {
    if s == [] || s[|s| - 1].total >= x.total then s + [x]
    else InsertDesc(s[..|s| - 1], x) + [s[|s| - 1]]
  }

  /** The stable descending order of `sort((a, b) => b.value - a.value)`. */
  function RankDesc(gs: seq<Group<string>>): seq<Group<string>>
    decreases |gs|
  {
    if gs == [] then [] else InsertDesc(RankDesc(gs[..|gs| - 1]), gs[|gs| - 1])
  }

  lemma {:induction false} InsertDescPermutes(s: seq<Group<string>>, x: Group<string>)
    ensures multiset(InsertDesc(s, x)) == multiset(s) + multiset{x}
    decreases |s|
  {
    if !(s == [] || s[|s| - 1].total >= x.total) {
      InsertDescPermutes(s[..|s| - 1], x);
      assert s == s[..|s| - 1] + [s[|s| - 1]];
    }
  }

  /** Inserting keeps a lower bound that the list and the inserted entry both respect. */
  lemma {:induction false} InsertDescBounded(s: seq<Group<string>>, x: Group<string>, bound: int)
    requires forall k :: 0 <= k < |s| ==> s[k].total >= bound
    requires x.total >= bound
    ensures forall k :: 0 <= k < |InsertDesc(s, x)| ==> InsertDesc(s, x)[k].total >= bound
    decreases |s|
  {
    var r := InsertDesc(s, x);
    if s == [] || s[|s| - 1].total >= x.total {
      assert r == s + [x];
      assert forall k :: 0 <= k < |s| ==> r[k] == s[k];
    } else {
      var init := s[..|s| - 1];
      InsertDescBounded(init, x, bound);
      var ri := InsertDesc(init, x);
      assert r == ri + [s[|s| - 1]];
      assert forall k :: 0 <= k < |ri| ==> r[k] == ri[k];
      assert r[|ri|] == s[|s| - 1];
    }
  }

  lemma {:induction false} InsertDescSorted(s: seq<Group<string>>, x: Group<string>)
    requires SortedDesc(s)
    ensures SortedDesc(InsertDesc(s, x))
    decreases |s|
  {
    if !(s == [] || s[|s| - 1].total >= x.total) {
      var init := s[..|s| - 1];
      var last := s[|s| - 1];
      InsertDescSorted(init, x);
      InsertDescBounded(init, x, last.total);
      var r := InsertDesc(init, x);
      assert InsertDesc(s, x) == r + [last];
    }
  }

  /** The ranking is a permutation of its input. */
  lemma {:induction false} RankDescPermutes(gs: seq<Group<string>>)
    ensures multiset(RankDesc(gs)) == multiset(gs)
    decreases |gs|
  {
    if gs != [] {
      RankDescPermutes(gs[..|gs| - 1]);
      InsertDescPermutes(RankDesc(gs[..|gs| - 1]), gs[|gs| - 1]);
      assert gs == gs[..|gs| - 1] + [gs[|gs| - 1]];
    }
  }

  /** The ranking puts the highest totals first. */
  lemma {:induction false} RankDescSorted(gs: seq<Group<string>>)
    ensures SortedDesc(RankDesc(gs))
    decreases |gs|
  {
    if gs != [] {
      RankDescSorted(gs[..|gs| - 1]);
      InsertDescSorted(RankDesc(gs[..|gs| - 1]), gs[|gs| - 1]);
    }
  }

  /** A list already ranked is left exactly as it is: the sort is stable. */
  lemma {:induction false} RankDescKeepsRanked(gs: seq<Group<string>>)
    requires SortedDesc(gs)
    ensures RankDesc(gs) == gs
    decreases |gs|
  {
    if gs != [] {
      var n := |gs|;
      RankDescKeepsRanked(gs[..n - 1]);
      assert gs == gs[..n - 1] + [gs[n - 1]];
    }
  }

  /** Shifting every smaller-ranked entry one place up is the same as inserting. */
  lemma {:induction false} InsertDescShift(s: seq<Group<string>>, x: Group<string>, j: nat)
    requires j <= |s|
    requires forall k :: j <= k < |s| ==> s[k].total < x.total
    ensures InsertDesc(s, x) == InsertDesc(s[..j], x) + s[j..]
    decreases |s| - j
  {
    if j < |s| {
      var init := s[..|s| - 1];
      InsertDescShift(init, x, j);
      assert init[..j] == s[..j];
      assert init[j..] + [s[|s| - 1]] == s[j..];
    } else {
      assert s[..j] == s;
    }
  }

  /** Where the insertion loop stops, the inserted entry lands: after the prefix, before the smaller rest. */
  lemma InsertDescAt(s: seq<Group<string>>, x: Group<string>, j: nat)
    requires j <= |s|
    requires j == 0 || s[j - 1].total >= x.total
    requires forall k :: j <= k < |s| ==> s[k].total < x.total
    ensures InsertDesc(s, x) == s[..j] + [x] + s[j..]
  {
    InsertDescShift(s, x, j);
    assert InsertDesc(s[..j], x) == s[..j] + [x];
  }

  /** The array after the shift loop and the final store holds the insertion of `x` into `s`. */
  lemma InsertLanding(r: seq<Group<string>>, s: seq<Group<string>>, x: Group<string>, j: nat)
    requires j <= |s| < |r|
    requires j == 0 || s[j - 1].total >= x.total
    requires forall k :: j <= k < |s| ==> s[k].total < x.total
    requires forall k :: 0 <= k < j ==> r[k] == s[k]
    requires r[j] == x
    requires forall k :: j < k <= |s| ==> r[k] == s[k - 1]
    ensures r[..|s| + 1] == InsertDesc(s, x)
  {
    InsertDescAt(s, x, j);
    var t := s[..j] + [x] + s[j..];
    assert forall k :: 0 <= k < j ==> t[k] == s[k];
    assert forall k :: j < k <= |s| ==> t[k] == s[k - 1];
    assert r[..|s| + 1] == t;
  }

  /** One insertion step: `a[i]` moves down past every entry of `a[..i]` with a smaller total. */
  method InsertInto(a: array<Group<string>>, i: nat)
    requires i < a.Length
    modifies a
    ensures a[..i + 1] == InsertDesc(old(a[..i]), old(a[i]))
    ensures a[i + 1..] == old(a[i + 1..])
  {
    ghost var s := a[..i];
    var x := a[i];
    var j := i;
    while j > 0 && a[j - 1].total < x.total
      invariant 0 <= j <= i
      invariant forall k :: 0 <= k < j ==> a[k] == s[k]
      invariant forall k :: j < k <= i ==> a[k] == s[k - 1]
      invariant forall k :: i < k < a.Length ==> a[k] == old(a[k])
      invariant forall k :: j <= k < i ==> s[k].total < x.total
    {
      a[j] := a[j - 1];
      j := j - 1;
    }
    a[j] := x;
    InsertLanding(a[..], s, x, j);
    assert a[i + 1..] == old(a[i + 1..]);
  }

  /** The in-place sort of the reduced array, by insertion with strict comparison. */
  method RankCountries(a: array<Group<string>>)
    modifies a
    ensures a[..] == RankDesc(old(a[..]))
  {
    ghost var input := a[..];
    for i := 0 to a.Length
      invariant a[..i] == RankDesc(input[..i])
      invariant a[i..] == input[i..]
    {
      assert a[i] == input[i];
      assert input[..i + 1] == input[..i] + [input[i]];
      InsertInto(a, i);
    }
    assert input[..a.Length] == input;
  }

  /** `WorldMapComponent`'s `data`: requests per country over all days, highest first. */
  method CountryRanking(days: seq<CountryDay>) returns (data: seq<Group<string>>)
    ensures data == RankDesc(GroupBy(Project(Flatten(days, CountryEntries), CountryKey, CountryRequests)))
  {
    var flat: seq<CountryEntry> := [];
    for i := 0 to |days|
      invariant flat == Flatten(days[..i], CountryEntries)
    {
      FlattenSnoc(days, i, CountryEntries);
      flat := flat + days[i].countryMap;
    }
    assert days[..|days|] == days;
    var acc := AccumulateEntries([], [], flat, CountryKey, CountryRequests);
    assert [] + flat == flat;
    data := Ranked(acc);
  }

  /** The reduced countries copied into an array and sorted there. */
  method Ranked(groups: seq<Group<string>>) returns (data: seq<Group<string>>)
    ensures data == RankDesc(groups)
  {
    var a := new Group<string>[|groups|](i requires 0 <= i < |groups| => groups[i]);
    assert a[..] == groups;
    RankCountries(a);
    data := a[..];
  }

  /** With distinct keys no group occurs twice. */
  lemma {:induction false} DistinctOnce(gs: seq<Group<string>>, g: Group<string>)
    requires DistinctKeys(gs)
    ensures multiset(gs)[g] <= 1
    decreases |gs|
  {
    if gs != [] {
      DistinctOnce(gs[1..], g);
      assert gs == [gs[0]] + gs[1..];
      assert forall k :: 0 <= k < |gs| - 1 ==> gs[1..][k].key != gs[0].key;
    }
  }

  lemma TwiceCounted(data: seq<Group<string>>, i: nat, j: nat)
    requires i < j < |data| && data[i] == data[j]
    ensures multiset(data)[data[i]] >= 2
  {
    assert data == data[..j] + data[j..];
    assert data[..j][i] == data[i];
    assert data[j..][0] == data[j];
  }

  /** Reordering a list with distinct keys keeps them distinct. */
  lemma PermutationKeepsDistinct(gs: seq<Group<string>>, data: seq<Group<string>>)
    requires DistinctKeys(gs) && multiset(data) == multiset(gs)
    ensures DistinctKeys(data)
  {
    forall i, j | 0 <= i < j < |data|
      ensures data[i].key != data[j].key
    {
      assert data[i] in multiset(gs);
      assert data[j] in multiset(gs);
      var mi :| 0 <= mi < |gs| && gs[mi] == data[i];
      var mj :| 0 <= mj < |gs| && gs[mj] == data[j];
      if mi == mj {
        TwiceCounted(data, i, j);
        DistinctOnce(gs, data[i]);
      }
    }
  }

  /**
   * The world map lists each country once, with the sum of its requests over
   * every day, and no entry follows one with fewer requests.
   */
  lemma CountryRankingSums(days: seq<CountryDay>)
    ensures var rows := Project(Flatten(days, CountryEntries), CountryKey, CountryRequests);
            var data := RankDesc(GroupBy(rows));
            && SortedDesc(data)
            && multiset(data) == multiset(GroupBy(rows))
            && DistinctKeys(data)
            && (forall i :: 0 <= i < |data| ==> data[i].total == SumFor(rows, data[i].key))
  {
    var rows := Project(Flatten(days, CountryEntries), CountryKey, CountryRequests);
    var gs := GroupBy(rows);
    var data := RankDesc(gs);
    RankDescSorted(gs);
    RankDescPermutes(gs);
    GroupByOnePerKey(rows);
    GroupByTotals(rows);
    PermutationKeepsDistinct(gs, data);
    forall i | 0 <= i < |data|
      ensures data[i].total == SumFor(rows, data[i].key)
    {
      assert data[i] in multiset(gs);
      var m :| 0 <= m < |gs| && gs[m] == data[i];
    }
  }
}
