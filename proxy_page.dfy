// The proxy statistics page's own state: the selected date range with its day
// count, and the twelve per-day series filled from one analytics answer.
// Dates are whole day numbers (days since the epoch); a `YYYY-MM-DD` string
// parsed by `new Date` is midnight UTC of that day, i.e. `day * MsPerDay`.

module ProxyPage {
  import opened Wrappers
  import opened ProxyCharts

  const MsPerDay: int := 1000 * 3600 * 24

  /** `calculateDateDifference`: whole days between two instants, rounded down. */
  function DayDifference(startMs: int, endMs: int): (d: int)
    ensures d * MsPerDay <= endMs - startMs < (d + 1) * MsPerDay
  {
    (endMs - startMs) / MsPerDay
  }

  /** Between two midnights the difference is exactly the number of days. */
  lemma DayDifferenceOfDays(startDay: int, endDay: int)
    ensures DayDifference(startDay * MsPerDay, endDay * MsPerDay) == endDay - startDay
  {
    assert endDay * MsPerDay - startDay * MsPerDay == (endDay - startDay) * MsPerDay;
  }

  /** The longest range, in days, the page accepts. */
  const MaxSpan: int := 394

  datatype Bound = Geq | Leq

  /** How `handleDateChange` ended. */
  datatype DateOutcome = Ignored | EndBeforeStart | SpanTooLong | Applied

  /** The checks of `handleDateChange` on the would-be range, in the source's order. */
  function RangeCheck(startDay: int, endDay: int): (o: DateOutcome)
    ensures o != Ignored
  {
    if endDay * MsPerDay < startDay * MsPerDay then EndBeforeStart
    else if DayDifference(startDay * MsPerDay, endDay * MsPerDay) > MaxSpan then SpanTooLong
    else Applied
  }

  /** A range is accepted exactly when it runs forwards and spans at most 394 days. */
  lemma RangeCheckAccepts(startDay: int, endDay: int)
    ensures RangeCheck(startDay, endDay) == Applied <==> 0 <= endDay - startDay <= MaxSpan
    ensures RangeCheck(startDay, endDay) == EndBeforeStart <==> endDay < startDay
  {
    DayDifferenceOfDays(startDay, endDay);
    assert endDay * MsPerDay - startDay * MsPerDay == (endDay - startDay) * MsPerDay;
  }

  /** What the analytics query reports for one day (`sum` and `dimensions.date`). */
  datatype DailySum = DailySum(
    requests: int,
    cachedRequests: int,
    bytes: int,
    cachedBytes: int,
    threats: int,
    encryptedBytes: int,
    encryptedRequests: int,
    browserMap: seq<BrowserEntry>,
    contentTypeMap: seq<ContentTypeEntry>,
    countryMap: seq<CountryEntry>,
    responseStatusMap: seq<StatusEntry>)

  datatype DayGroup = DayGroup(date: string, sum: DailySum, uniques: int)

  /** How the analytics call ended: it rejected, or answered with a status and the day groups. */
  datatype AnalyticsReply = Rejected | Answered(status: int, groups: seq<DayGroup>)

  /** One point of a line or bar chart. */
  datatype Point = Point(date: string, value: int)

  /** The twelve per-day lists the page keeps, one entry per day group each. */
  datatype Charts = Charts(
    requests: seq<Point>,
    cachedRequests: seq<Point>,
    bytes: seq<Point>,
    cachedBytes: seq<Point>,
    threats: seq<Point>,
    encryptedBytes: seq<Point>,
    encryptedRequests: seq<Point>,
    browserMap: seq<BrowserDay>,
    contentTypeMap: seq<ContentTypeDay>,
    countryMap: seq<CountryDay>,
    responseStatusMap: seq<StatusDay>,
    uniques: seq<Point>)

  const NoCharts := Charts([], [], [], [], [], [], [], [], [], [], [], [])

  /** The entry each list receives for one day group. */
  function RequestsPoint(g: DayGroup): Point { Point(g.date, g.sum.requests) }
  function CachedRequestsPoint(g: DayGroup): Point { Point(g.date, g.sum.cachedRequests) }
  function BytesPoint(g: DayGroup): Point { Point(g.date, g.sum.bytes) }
  function CachedBytesPoint(g: DayGroup): Point { Point(g.date, g.sum.cachedBytes) }
  function ThreatsPoint(g: DayGroup): Point { Point(g.date, g.sum.threats) }
  function EncryptedBytesPoint(g: DayGroup): Point { Point(g.date, g.sum.encryptedBytes) }
  function EncryptedRequestsPoint(g: DayGroup): Point { Point(g.date, g.sum.encryptedRequests) }
  function UniquesPoint(g: DayGroup): Point { Point(g.date, g.uniques) }
  function BrowserDayOf(g: DayGroup): BrowserDay { BrowserDay(g.date, g.sum.browserMap) }
  function ContentTypeDayOf(g: DayGroup): ContentTypeDay { ContentTypeDay(g.date, g.sum.contentTypeMap) }
  function CountryDayOf(g: DayGroup): CountryDay { CountryDay(g.date, g.sum.countryMap) }
  function StatusDayOf(g: DayGroup): StatusDay { StatusDay(g.date, g.sum.responseStatusMap) }

  /** One pass of the `forEach` body: push this day's entry onto each of the twelve lists. */
  function Push(c: Charts, g: DayGroup): Charts {
    Charts(
      c.requests + [RequestsPoint(g)],
      c.cachedRequests + [CachedRequestsPoint(g)],
      c.bytes + [BytesPoint(g)],
      c.cachedBytes + [CachedBytesPoint(g)],
      c.threats + [ThreatsPoint(g)],
      c.encryptedBytes + [EncryptedBytesPoint(g)],
      c.encryptedRequests + [EncryptedRequestsPoint(g)],
      c.browserMap + [BrowserDayOf(g)],
      c.contentTypeMap + [ContentTypeDayOf(g)],
      c.countryMap + [CountryDayOf(g)],
      c.responseStatusMap + [StatusDayOf(g)],
      c.uniques + [UniquesPoint(g)])
  }

  /** The lists built from the day groups, in the answer's order. */
  function ChartsOf(groups: seq<DayGroup>): Charts
    decreases |groups|
  {
    if groups == [] then NoCharts else Push(ChartsOf(groups[..|groups| - 1]), groups[|groups| - 1])
  }

  /** A list holds one entry per day group, in order: entry `i` is `entry(gs[i])`. */
  predicate Aligned<T(==)>(xs: seq<T>, gs: seq<DayGroup>, entry: DayGroup -> T) {
    |xs| == |gs| && forall i :: 0 <= i < |gs| ==> xs[i] == entry(gs[i])
  }

  /** Pushing the entry of one more day group keeps a list aligned. */
  lemma AlignedSnoc<T>(xs: seq<T>, gs: seq<DayGroup>, entry: DayGroup -> T, g: DayGroup)
    requires Aligned(xs, gs, entry)
    ensures Aligned(xs + [entry(g)], gs + [g], entry)
  {
    var ys, hs := xs + [entry(g)], gs + [g];
    forall i | 0 <= i < |hs|
      ensures ys[i] == entry(hs[i])
    {
      if i < |gs| {
        assert ys[i] == xs[i] && hs[i] == gs[i];
      }
    }
  }

  /** The numeric lists: entry `i` carries day `i`'s date and its number. */
  predicate NumbersAligned(c: Charts, gs: seq<DayGroup>) {
    && Aligned(c.requests, gs, RequestsPoint)
    && Aligned(c.cachedRequests, gs, CachedRequestsPoint)
    && Aligned(c.bytes, gs, BytesPoint)
    && Aligned(c.cachedBytes, gs, CachedBytesPoint)
    && Aligned(c.threats, gs, ThreatsPoint)
    && Aligned(c.encryptedBytes, gs, EncryptedBytesPoint)
    && Aligned(c.encryptedRequests, gs, EncryptedRequestsPoint)
    && Aligned(c.uniques, gs, UniquesPoint)
  }

  /** The map lists: entry `i` carries day `i`'s date and its map, unchanged. */
  predicate MapsAligned(c: Charts, gs: seq<DayGroup>) {
    && Aligned(c.browserMap, gs, BrowserDayOf)
    && Aligned(c.contentTypeMap, gs, ContentTypeDayOf)
    && Aligned(c.countryMap, gs, CountryDayOf)
    && Aligned(c.responseStatusMap, gs, StatusDayOf)
  }

  /** Every numeric list has exactly one entry per day group, in order, with that day's date and value. */
  lemma {:induction false} ChartsOfNumbers(groups: seq<DayGroup>)
    ensures NumbersAligned(ChartsOf(groups), groups)
    decreases |groups|
  {
    if groups != [] {
      var init, g := groups[..|groups| - 1], groups[|groups| - 1];
      var c := ChartsOf(init);
      ChartsOfNumbers(init);
      assert init + [g] == groups;
      AlignedSnoc(c.requests, init, RequestsPoint, g);
      AlignedSnoc(c.cachedRequests, init, CachedRequestsPoint, g);
      AlignedSnoc(c.bytes, init, BytesPoint, g);
      AlignedSnoc(c.cachedBytes, init, CachedBytesPoint, g);
      AlignedSnoc(c.threats, init, ThreatsPoint, g);
      AlignedSnoc(c.encryptedBytes, init, EncryptedBytesPoint, g);
      AlignedSnoc(c.encryptedRequests, init, EncryptedRequestsPoint, g);
      AlignedSnoc(c.uniques, init, UniquesPoint, g);
    }
  }

  /** Every map list has exactly one entry per day group, in order, with that day's date and map. */
  lemma {:induction false} ChartsOfMaps(groups: seq<DayGroup>)
    ensures MapsAligned(ChartsOf(groups), groups)
    decreases |groups|
  {
    if groups != [] {
      var init, g := groups[..|groups| - 1], groups[|groups| - 1];
      var c := ChartsOf(init);
      ChartsOfMaps(init);
      assert init + [g] == groups;
      AlignedSnoc(c.browserMap, init, BrowserDayOf, g);
      AlignedSnoc(c.contentTypeMap, init, ContentTypeDayOf, g);
      AlignedSnoc(c.countryMap, init, CountryDayOf, g);
      AlignedSnoc(c.responseStatusMap, init, StatusDayOf, g);
    }
  }

  /** The `forEach` over the day groups that pushes one entry per group onto each of the twelve lists. */
  method Collect(data: seq<DayGroup>) returns (c: Charts)
    ensures c == ChartsOf(data)
    ensures NumbersAligned(c, data) && MapsAligned(c, data)
  {
    c := NoCharts;
    for i := 0 to |data|
      invariant c == ChartsOf(data[..i])
    {
      assert data[..i + 1][..i] == data[..i];
      c := Push(c, data[i]);
    }
    assert data[..|data|] == data;
    ChartsOfNumbers(data);
    ChartsOfMaps(data);
  }

  class ProxyStatistics {
    var dateGeq: int
    var dateLeq: int
    var limit: int
    var charts: Charts
    var isLoading: bool

    /** The range runs forwards, spans at most 394 days, and `limit` is its day count. */
    predicate RangeValid()
      reads this
    {
      0 <= dateLeq - dateGeq <= MaxSpan && limit == dateLeq - dateGeq
    }

    /** The initial state: the last 30 days up to `today`, no data yet. */
    constructor (today: int)
      ensures dateGeq == today - 30 && dateLeq == today && limit == 30
      ensures charts == NoCharts && !isLoading
      ensures RangeValid()
    {
      dateGeq, dateLeq, limit := today - 30, today, 30;
      charts := NoCharts;
      isLoading := false;
    }

    /**
     * `handleDateChange`: a cleared picker is ignored; a range that runs
     * backwards or spans more than 394 days is refused and nothing changes;
     * otherwise the picked bound moves and `limit` becomes the day count.
     */
    method HandleDateChange(date: Option<int>, bound: Bound) returns (outcome: DateOutcome)
      modifies this
      ensures date.None? ==> outcome == Ignored
      ensures date.Some? ==>
                var start := if bound == Geq then date.value else old(dateGeq);
                var end := if bound == Leq then date.value else old(dateLeq);
                outcome == RangeCheck(start, end)
                && (outcome == Applied ==> dateGeq == start && dateLeq == end && limit == end - start)
      ensures outcome != Applied ==> dateGeq == old(dateGeq) && dateLeq == old(dateLeq) && limit == old(limit)
      ensures old(RangeValid()) ==> RangeValid()
      ensures charts == old(charts) && isLoading == old(isLoading)
    {
      if date.None? {
        return Ignored;
      }
      var start := if bound == Geq then date.value else dateGeq;
      var end := if bound == Leq then date.value else dateLeq;
      RangeCheckAccepts(start, end);
      DayDifferenceOfDays(start, end);
      if end * MsPerDay < start * MsPerDay {
        return EndBeforeStart;
      }
      var differenceInDays := DayDifference(start * MsPerDay, end * MsPerDay);
      if differenceInDays > MaxSpan {
        return SpanTooLong;
      }
      if bound == Geq {
        dateGeq := date.value;
      } else {
        dateLeq := date.value;
      }
      limit := differenceInDays;
      outcome := Applied;
    }

    /**
     * `getProxyAnalytics`: a 200 answer replaces all twelve lists with one
     * entry per day group; any other status throws, so nothing is replaced.
     * Either way the loading flag is cleared at the end.
     */
    method FetchAnalytics(reply: AnalyticsReply)
      modifies this
      ensures !isLoading
      ensures dateGeq == old(dateGeq) && dateLeq == old(dateLeq) && limit == old(limit)
      ensures reply.Answered? && reply.status == 200 ==> charts == ChartsOf(reply.groups)
      ensures !(reply.Answered? && reply.status == 200) ==> charts == old(charts)
    {
      isLoading := true;
      if reply.Answered? && reply.status == 200 {
        charts := Collect(reply.groups);
      }
      isLoading := false;
    }
  }
}
