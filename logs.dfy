// The logs page: the filter record sent with every log query and the handlers
// that replace it, plus the pure helpers for the table and the counters
// (row numbers, the thousands separator, the chart points, the level tag).

module Logs {
  import opened Wrappers
  import opened AntTable
  import opened Text

  // ---------------------------------------------------------------------
  // Pure helpers
  // ---------------------------------------------------------------------

  /** The "No" column: the row's position counted across pages. */
  function RowNumber(index: nat, page: int, itemsPerPage: int): (n: int)
    ensures n - index - 1 == (page - 1) * itemsPerPage
  {
    (index + 1) + (page - 1) * itemsPerPage
  }

  /** Numbering continues across pages: page `p` holds exactly the numbers `(p-1)*size+1 .. p*size`. */
  lemma RowNumbersContinue(page: int, itemsPerPage: nat)
    requires itemsPerPage > 0
    ensures RowNumber(itemsPerPage - 1, page, itemsPerPage) + 1 == RowNumber(0, page + 1, itemsPerPage)
    ensures forall i: nat :: i < itemsPerPage ==>
              (page - 1) * itemsPerPage < RowNumber(i, page, itemsPerPage) <= page * itemsPerPage
  {
    assert (page + 1 - 1) * itemsPerPage == (page - 1) * itemsPerPage + itemsPerPage;
  }

  /**
   * The digits as the regex `\B(?=(\d{3})+(?!\d))` leaves them: a comma goes
   * after a digit exactly when the digits still to its right are a positive
   * multiple of three.
   */
  function MarkTail(t: string): (r: string)
    decreases |t|
  {
    if t == [] then []
    else [t[0]] + (if |t| > 1 && (|t| - 1) % 3 == 0 then [','] else []) + MarkTail(t[1..])
  }

  /** Grouping from the right: the last three digits, a comma, and the rest grouped the same way. */
  function Separate(s: string): (r: string)
    ensures |s| <= 3 ==> r == s
    decreases |s|
  {
    if |s| <= 3 then s else Separate(s[..|s| - 3]) + [','] + s[|s| - 3..]
  }

  /** The text with every comma removed. */
  function StripCommas(s: string): string
    decreases |s|
  {
    if s == [] then [] else (if s[0] == ',' then [] else [s[0]]) + StripCommas(s[1..])
  }

  lemma {:induction false} MarkTailShort(t: string)
    requires |t| <= 3
    ensures MarkTail(t) == t
    decreases |t|
  {
    if t != [] {
      MarkTailShort(t[1..]);
    }
  }

  /** Splitting off a positive multiple of three digits on the right puts one comma at the seam. */
  lemma {:induction false} MarkTailAppend(a: string, b: string)
    requires a != [] && b != [] && |b| % 3 == 0
    ensures MarkTail(a + b) == MarkTail(a) + [','] + MarkTail(b)
    decreases |a|
  {
    var ab := a + b;
    assert ab[0] == a[0] && ab[1..] == a[1..] + b;
    var mark: string := if |a| > 1 && (|a| - 1) % 3 == 0 then [','] else [];
    var markAb: string := if |ab| > 1 && (|ab| - 1) % 3 == 0 then [','] else [];
    assert markAb == (if (|a| - 1) % 3 == 0 then [','] else []) by {
      // Digits right of the head: in `a + b` there are `|b|` more, a multiple of three.
      MultipleOfThreeShift(|a| - 1, |b|);
    }
    var tb := MarkTail(b);
    if |a| > 1 {
      var ta := MarkTail(a[1..]);
      MarkTailAppend(a[1..], b);
      calc {
        MarkTail(ab);
        [a[0]] + mark + MarkTail(a[1..] + b);
        [a[0]] + mark + (ta + [','] + tb);
        ([a[0]] + mark + ta) + [','] + tb;
        MarkTail(a) + [','] + tb;
      }
    } else {
      assert a[1..] + b == b;
      assert MarkTail(ab) == [a[0]] + [','] + tb;
      assert MarkTail(a) == [a[0]];
    }
  }

  /** Adding a multiple of three keeps the remainder modulo three. */
  lemma MultipleOfThreeShift(x: int, m: int)
    requires x >= 0 && m >= 0 && m % 3 == 0
    ensures (x + m) % 3 == x % 3
  {
    assert x + m == x + 3 * (m / 3);
  }

  /** The grouping recursion inserts the commas exactly where the regex does. */
  lemma {:induction false} SeparateIsRegex(s: string)
    ensures Separate(s) == MarkTail(s)
    decreases |s|
  {
    if |s| <= 3 {
      MarkTailShort(s);
    } else {
      var a, b := s[..|s| - 3], s[|s| - 3..];
      SeparateIsRegex(a);
      MarkTailShort(b);
      MarkTailAppend(a, b);
      assert a + b == s;
    }
  }

  lemma {:induction false} StripCommasAppend(a: string, b: string)
    ensures StripCommas(a + b) == StripCommas(a) + StripCommas(b)
    decreases |a|
  {
    if a == [] {
      assert a + b == b;
    } else {
      assert (a + b)[1..] == a[1..] + b;
      StripCommasAppend(a[1..], b);
    }
  }

  lemma {:induction false} StripCommasNone(s: string)
    requires ',' !in s
    ensures StripCommas(s) == s
    decreases |s|
  {
    if s != [] {
      StripCommasNone(s[1..]);
    }
  }

  /** Removing the commas restores the digits. */
  lemma {:induction false} SeparateRoundTrip(s: string)
    requires AllDigits(s)
    ensures StripCommas(Separate(s)) == s
    decreases |s|
  {
    if |s| <= 3 {
      StripCommasNone(s);
    } else {
      var a, b := s[..|s| - 3], s[|s| - 3..];
      assert AllDigits(a) by {
        assert forall i :: 0 <= i < |a| ==> a[i] == s[i];
      }
      assert ',' !in b by {
        assert forall i :: 0 <= i < |b| ==> b[i] == s[|s| - 3 + i];
      }
      var ra := Separate(a);
      assert Separate(s) == ra + [','] + b;
      SeparateRoundTrip(a);
      StripSeam(ra, b);
      assert a + b == s;
    }
  }

  /** The comma at a seam disappears and the digits on either side stay. */
  lemma {:induction false} StripSeam(ra: string, b: string)
    requires ',' !in b
    ensures StripCommas(ra + [','] + b) == StripCommas(ra) + b
  {
    var comma: string := [','];
    var left := ra + comma;
    StripCommasAppend(left, b);
    StripCommasAppend(ra, comma);
    StripOneComma();
    StripCommasNone(b);
    assert StripCommas(left) == StripCommas(ra);
  }

  lemma StripOneComma()
    ensures StripCommas([',']) == []
  {
    var comma: string := [','];
    assert comma[1..] == [];
  }

  /** No comma at either end, no two commas in a row, and one comma per full group of three. */
  lemma {:induction false} SeparateShape(s: string)
    requires s != [] && AllDigits(s)
    ensures var r := Separate(s);
            && r[0] != ',' && r[|r| - 1] != ','
            && |r| == |s| + (|s| - 1) / 3
            && forall i :: 0 <= i < |r| - 1 && r[i] == ',' ==> r[i + 1] != ','
    decreases |s|
  {
    if |s| > 3 {
      var a, b := s[..|s| - 3], s[|s| - 3..];
      SeparateShape(a);
      var r := Separate(s);
      var ra := Separate(a);
      assert r == ra + [','] + b;
      assert forall i :: |ra| < i < |r| ==> r[i] == b[i - |ra| - 1];
    }
  }

  /** The counters show a number's decimal digits with the separators in place, which strip back to the number. */
  lemma CounterRoundTrip(n: nat)
    ensures StripCommas(Separate(NatToString(n))) == NatToString(n)
    ensures ParseInt(StripCommas(Separate(NatToString(n)))) == Some(n)
  {
    SeparateRoundTrip(NatToString(n));
    ParseIntOfNumber(n, []);
    assert NatToString(n) + [] == NatToString(n);
  }

  /** One bucket of the chart answer and the point it becomes. */
  datatype Bucket = Bucket(time: string, count: int)
  datatype ChartPoint = ChartPoint(x: string, y: int)

  /** `data.map(log => ({x: log.time, y: log.count}))`. */
  function ToPoints(data: seq<Bucket>): (ps: seq<ChartPoint>)
    ensures |ps| == |data|
    ensures forall i :: 0 <= i < |data| ==> ps[i].x == data[i].time && ps[i].y == data[i].count
  {
    seq(|data|, i requires 0 <= i < |data| => ChartPoint(data[i].time, data[i].count))
  }

  function FromPoints(ps: seq<ChartPoint>): (data: seq<Bucket>)
    ensures |data| == |ps|
  {
    seq(|ps|, i requires 0 <= i < |ps| => Bucket(ps[i].x, ps[i].y))
  }

  /** The transform loses nothing: the buckets can be read back from the points, in order. */
  lemma ToPointsInverse(data: seq<Bucket>)
    ensures FromPoints(ToPoints(data)) == data
  {
  }

  /** What the "Log Level" column shows. */
  datatype LevelCell = SuccessfulTag | ErrorTag | PlainText(text: string)

  function RenderLogLevel(text: string): (c: LevelCell)
    ensures c == SuccessfulTag <==> text == "info"
    ensures c == ErrorTag <==> text == "error"
    ensures c.PlainText? ==> c.text == text
  {
    if text == "info" then SuccessfulTag
    else if text == "error" then ErrorTag
    else PlainText(text)
  }

  // ---------------------------------------------------------------------
  // The filter record and its handlers
  // ---------------------------------------------------------------------

  /**
   * The query filter. The six search fields hold what the search form
   * delivers (text, or absent); `sortDirection` is "asc", "desc" or absent.
   */
  datatype Filter = Filter(
    logLevel: Option<string>,
    ip: Option<string>,
    url: Option<string>,
    httpMethod: Option<string>,
    statusCode: Option<string>,
    message: Option<string>,
    page: int,
    itemsPerPage: int,
    sortDirection: Option<string>)

  const InitialFilter := Filter(None, None, None, None, None, None, 1, 10, Some("desc"))

  /** The search form's values; an empty field is present as `undefined` and overrides the old filter. */
  datatype SearchValues = SearchValues(
    logLevel: Option<string>,
    ip: Option<string>,
    url: Option<string>,
    httpMethod: Option<string>,
    statusCode: Option<string>,
    message: Option<string>)

  /** The pagination antd hands to the table's `onChange` next to the sorter; `None` stands for a missing part. */
  datatype Pagination = Pagination(current: Option<int>, pageSize: Option<int>)

  predicate SorterSet(sorter: Option<Sorter>) {
    sorter.Some? && sorter.value.field.Some? && sorter.value.field.value != ""
  }

  predicate PaginationSet(pagination: Option<Pagination>) {
    && pagination.Some?
    && pagination.value.current.Some? && pagination.value.current.value != 0
    && pagination.value.pageSize.Some? && pagination.value.pageSize.value != 0
  }

  /** The direction a sorter order selects: "ascend" is ascending, anything else descending. */
  function Direction(order: Option<string>): (d: string)
    ensures d == "asc" <==> order == Some("ascend")
    ensures d != "asc" ==> d == "desc"
  {
    if order == Some("ascend") then "asc" else "desc"
  }

  /**
   * `handleTableChange` on the filter it closes over: a sorter with a field
   * asks for its direction and a pagination with page and size asks for
   * those, each as an update of `f`; the later `setFilter` wins.
   */
  function TableChange(f: Filter, pagination: Option<Pagination>, sorter: Option<Sorter>): (r: Filter)
    ensures r.(page := f.page, itemsPerPage := f.itemsPerPage, sortDirection := f.sortDirection) == f
    ensures PaginationSet(pagination) ==>
              r.page == pagination.value.current.value && r.itemsPerPage == pagination.value.pageSize.value
    ensures !PaginationSet(pagination) ==> r.page == f.page && r.itemsPerPage == f.itemsPerPage
    ensures r.sortDirection == (if SorterSet(sorter) && !PaginationSet(pagination)
                                then Some(Direction(sorter.value.order)) else f.sortDirection)
  {
    var sorted := if SorterSet(sorter) then f.(sortDirection := Some(Direction(sorter.value.order))) else f;
    if PaginationSet(pagination)
    then f.(page := pagination.value.current.value, itemsPerPage := pagination.value.pageSize.value)
    else sorted
  }

  /** A log line as the table lists it. */
  datatype LogLine = LogLine(url: string, httpMethod: string, statusCode: string, level: string, ip: string, timestamp: string)

  datatype LogsReply = LogsThrown | LogsAnswered(status: int, logs: seq<LogLine>)
  datatype ChartReply = ChartThrown | ChartAnswered(status: int, buckets: seq<Bucket>)
  datatype CountReply = CountThrown | CountAnswered(status: int, error: nat, info: nat, total: nat)

  /** The three counters as displayed; the error rate is a float and is not kept here. */
  datatype Counters = Counters(total: string, info: string, error: string)

  class LogsPage {
    var filter: Filter
    var logs: seq<LogLine>
    var chartData: seq<ChartPoint>
    var isChartLoading: bool
    var counters: Counters

    constructor ()
      ensures filter == InitialFilter && logs == [] && chartData == []
      ensures isChartLoading && counters == Counters("0", "0", "0")
    {
      filter := InitialFilter;
      logs, chartData := [], [];
      isChartLoading := true;
      counters := Counters("0", "0", "0");
    }

    /**
     * `handleTableChange`: a sorter with a field asks for its direction and a
     * pagination with page and size asks for those; both are built from the
     * filter as it was, so when both are present the pagination update wins
     * and the direction change is lost.
     */
    method HandleTableChange(pagination: Option<Pagination>, sorter: Option<Sorter>)
      modifies this
      ensures filter == TableChange(old(filter), pagination, sorter)
      ensures logs == old(logs) && chartData == old(chartData)
      ensures isChartLoading == old(isChartLoading) && counters == old(counters)
    {
      var before := filter;
      if SorterSet(sorter) {
        filter := before.(sortDirection := Some(Direction(sorter.value.order)));
      }
      if PaginationSet(pagination) {
        filter := before.(page := pagination.value.current.value, itemsPerPage := pagination.value.pageSize.value);
      }
    }

    /** A click on any column title flips "desc" to "asc"; any other direction becomes "desc". */
    method HandleColumnTitleClick()
      modifies this
      ensures filter == old(filter).(sortDirection := Some(if old(filter).sortDirection == Some("desc") then "asc" else "desc"))
      ensures logs == old(logs) && chartData == old(chartData)
      ensures isChartLoading == old(isChartLoading) && counters == old(counters)
    {
      var newSortDirection := "desc";
      if filter.sortDirection == Some("desc") {
        newSortDirection := "asc";
      }
      filter := filter.(sortDirection := Some(newSortDirection));
    }

    /** `handleSearch`: the form's six fields over the filter, back to page 1; size and direction kept. */
    method HandleSearch(values: SearchValues)
      modifies this
      ensures filter == Filter(values.logLevel, values.ip, values.url, values.httpMethod, values.statusCode,
                               values.message, 1, old(filter).itemsPerPage, old(filter).sortDirection)
      ensures logs == old(logs) && chartData == old(chartData)
      ensures isChartLoading == old(isChartLoading) && counters == old(counters)
    {
      filter := Filter(values.logLevel, values.ip, values.url, values.httpMethod, values.statusCode,
                       values.message, 1, filter.itemsPerPage, filter.sortDirection);
    }

    /** The pager's `onChange`: page and size only. */
    method HandlePaginationChange(page: int, pageSize: int)
      modifies this
      ensures filter == old(filter).(page := page, itemsPerPage := pageSize)
      ensures logs == old(logs) && chartData == old(chartData)
      ensures isChartLoading == old(isChartLoading) && counters == old(counters)
    {
      filter := filter.(page := page, itemsPerPage := pageSize);
    }

    /** `getLogsData`: the table's rows are replaced only by a 200 answer. */
    method GetLogsData(reply: LogsReply)
      modifies this
      ensures reply.LogsAnswered? && reply.status == 200 ==> logs == reply.logs
      ensures !(reply.LogsAnswered? && reply.status == 200) ==> logs == old(logs)
      ensures filter == old(filter) && chartData == old(chartData)
      ensures isChartLoading == old(isChartLoading) && counters == old(counters)
    {
      if reply.LogsAnswered? && reply.status == 200 {
        logs := reply.logs;
      }
    }

    /**
     * `getChartData`: a 200 answer replaces the points and ends loading; a
     * throw ends loading only; any other status returns early and leaves the
     * spinner on.
     */
    method GetChartData(reply: ChartReply)
      modifies this
      ensures reply.ChartAnswered? && reply.status == 200 ==> chartData == ToPoints(reply.buckets) && !isChartLoading
      ensures reply.ChartThrown? ==> chartData == old(chartData) && !isChartLoading
      ensures reply.ChartAnswered? && reply.status != 200 ==> chartData == old(chartData) && isChartLoading == old(isChartLoading)
      ensures filter == old(filter) && logs == old(logs) && counters == old(counters)
    {
      match reply
      case ChartThrown =>
        isChartLoading := false;
      case ChartAnswered(status, buckets) =>
        if status == 200 {
          var points := [];
          for i := 0 to |buckets|
            invariant points == ToPoints(buckets[..i])
          {
            points := points + [ChartPoint(buckets[i].time, buckets[i].count)];
          }
          assert buckets[..|buckets|] == buckets;
          chartData := points;
          isChartLoading := false;
        }
    }

    /** `getLogsCount`: on a 200 answer each counter shows its number with thousands separators. */
    method GetLogsCount(reply: CountReply)
      modifies this
      ensures reply.CountAnswered? && reply.status == 200 ==>
                counters == Counters(Separate(NatToString(reply.total)), Separate(NatToString(reply.info)),
                                     Separate(NatToString(reply.error)))
      ensures !(reply.CountAnswered? && reply.status == 200) ==> counters == old(counters)
      ensures filter == old(filter) && logs == old(logs) && chartData == old(chartData)
      ensures isChartLoading == old(isChartLoading)
    {
      if reply.CountAnswered? && reply.status == 200 {
        counters := Counters(Separate(NatToString(reply.total)), Separate(NatToString(reply.info)),
                             Separate(NatToString(reply.error)));
      }
    }
  }

  /**
   * When the sorter and the pagination change in one `onChange`, the new
   * direction does not survive, although the same sorter alone, or the two
   * changes one after the other, would have set it.
   */
  lemma SortLostWithPagination(f: Filter, p: Pagination, s: Sorter)
    requires PaginationSet(Some(p)) && SorterSet(Some(s))
    requires f.sortDirection != Some(Direction(s.order))
    ensures TableChange(f, Some(p), Some(s)).sortDirection == f.sortDirection
    ensures TableChange(f, None, Some(s)).sortDirection == Some(Direction(s.order))
    ensures TableChange(TableChange(f, None, Some(s)), Some(p), None)
            == TableChange(f, Some(p), Some(s)).(sortDirection := Some(Direction(s.order)))
    ensures TableChange(f, Some(p), Some(s)) != TableChange(TableChange(f, None, Some(s)), Some(p), None)
  {
  }
}
