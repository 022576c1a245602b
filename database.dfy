// The database page: the table-size list filtered by a case-insensitive name
// search, the two fetches with their loading flags, and the spinner shown
// while either is still loading.

module Database {
  import opened Text

  /** One row of the PostgreSQL table-size list; the size columns are kept as text. */
  datatype TableSize = TableSize(table: string, totalSize: string)

  datatype ActiveSession = ActiveSession(pid: int, clientAddr: string)
  datatype MongoStat = MongoStat(name: string)

  /** A row matches when its lower-cased table name contains the lower-cased search text. */
  predicate Matches(row: TableSize, searchText: string) {
    Includes(Lower(row.table), Lower(searchText))
  }

  /** `filteredData`: the rows that match, in their original order. */
  function FilteredData(rows: seq<TableSize>, searchText: string): (r: seq<TableSize>)
    ensures |r| <= |rows|
    ensures forall i :: 0 <= i < |r| ==> Matches(r[i], searchText)
    decreases |rows|
  {
    if rows == [] then []
    else (if Matches(rows[0], searchText) then [rows[0]] else []) + FilteredData(rows[1..], searchText)
  }

  /** Exactly the matching rows are kept. */
  lemma {:induction false} FilteredMembers(rows: seq<TableSize>, searchText: string)
    ensures forall row :: row in FilteredData(rows, searchText) <==> row in rows && Matches(row, searchText)
    decreases |rows|
  {
    if rows != [] {
      FilteredMembers(rows[1..], searchText);
      assert rows == [rows[0]] + rows[1..];
    }
  }

  /** Filtering works row by row, so the kept rows stay in their original order. */
  lemma {:induction false} FilteredAppend(a: seq<TableSize>, b: seq<TableSize>, searchText: string)
    ensures FilteredData(a + b, searchText) == FilteredData(a, searchText) + FilteredData(b, searchText)
    decreases |a|
  {
    if a == [] {
      assert a + b == b;
    } else {
      var head := if Matches(a[0], searchText) then [a[0]] else [];
      assert (a + b)[0] == a[0] && (a + b)[1..] == a[1..] + b;
      FilteredAppend(a[1..], b, searchText);
      calc {
        FilteredData(a + b, searchText);
        head + FilteredData(a[1..] + b, searchText);
        head + (FilteredData(a[1..], searchText) + FilteredData(b, searchText));
        (head + FilteredData(a[1..], searchText)) + FilteredData(b, searchText);
      }
    }
  }

  /** An empty search keeps every row. */
  lemma {:induction false} EmptySearchKeepsAll(rows: seq<TableSize>)
    ensures FilteredData(rows, "") == rows
    decreases |rows|
  {
    if rows != [] {
      EmptyIncluded(Lower(rows[0].table));
      EmptySearchKeepsAll(rows[1..]);
    }
  }

  lemma LowerTwice(s: string)
    ensures Lower(Lower(s)) == Lower(s)
  {
    assert forall i :: 0 <= i < |s| ==> LowerChar(LowerChar(s[i])) == LowerChar(s[i]);
  }

  /** The case of the search text does not matter: searching its lower-case form keeps the same rows. */
  lemma {:induction false} SearchCaseInsensitive(rows: seq<TableSize>, searchText: string)
    ensures FilteredData(rows, Lower(searchText)) == FilteredData(rows, searchText)
    decreases |rows|
  {
    LowerTwice(searchText);
    if rows != [] {
      SearchCaseInsensitive(rows[1..], searchText);
    }
  }

  datatype PostgresReply = PostgresThrown | PostgresAnswered(status: int, tableSize: seq<TableSize>, activeSessions: seq<ActiveSession>)
  datatype MongoReply = MongoThrown | MongoAnswered(data: seq<MongoStat>)

  /** What the page renders: only a spinner, or the tables with the filtered table-size list. */
  datatype Screen = Spinner | Tables(tableSize: seq<TableSize>, activeSessions: seq<ActiveSession>, mongo: seq<MongoStat>)

  /** Everything the page holds, as one value. */
  datatype PageState = PageState(
    postgreTableSize: seq<TableSize>, postgreActiveSession: seq<ActiveSession>, mongoStat: seq<MongoStat>,
    isPostgreLoading: bool, isMongoLoading: bool, searchText: string)

  class DatabasePage {
    var postgreTableSize: seq<TableSize>
    var postgreActiveSession: seq<ActiveSession>
    var mongoStat: seq<MongoStat>
    var isPostgreLoading: bool
    var isMongoLoading: bool
    var searchText: string

    constructor ()
      ensures postgreTableSize == [] && postgreActiveSession == [] && mongoStat == []
      ensures !isPostgreLoading && !isMongoLoading && searchText == ""
    {
      postgreTableSize, postgreActiveSession, mongoStat := [], [], [];
      isPostgreLoading, isMongoLoading := false, false;
      searchText := "";
    }

    function State(): PageState
      reads this
    {
      PageState(postgreTableSize, postgreActiveSession, mongoStat, isPostgreLoading, isMongoLoading, searchText)
    }

    /** The mount effect raises both loading flags before the two fetches start. */
    method Mount()
      modifies this
      ensures isPostgreLoading && isMongoLoading
      ensures postgreTableSize == old(postgreTableSize) && postgreActiveSession == old(postgreActiveSession)
      ensures mongoStat == old(mongoStat) && searchText == old(searchText)
      ensures State() == old(State()).(isPostgreLoading := true, isMongoLoading := true)
    {
      isPostgreLoading := true;
      isMongoLoading := true;
    }

    /** `getPostgresqlData`: both lists are stored only on a 200 answer; the flag drops in `finally`. */
    method GetPostgresqlData(reply: PostgresReply)
      modifies this
      ensures !isPostgreLoading && isMongoLoading == old(isMongoLoading)
      ensures reply.PostgresAnswered? && reply.status == 200 ==>
                postgreTableSize == reply.tableSize && postgreActiveSession == reply.activeSessions
      ensures !(reply.PostgresAnswered? && reply.status == 200) ==>
                postgreTableSize == old(postgreTableSize) && postgreActiveSession == old(postgreActiveSession)
      ensures mongoStat == old(mongoStat) && searchText == old(searchText)
      ensures State() == old(State()).(postgreTableSize := postgreTableSize, postgreActiveSession := postgreActiveSession,
                                       isPostgreLoading := false)
    {
      if reply.PostgresAnswered? && reply.status == 200 {
        postgreTableSize := reply.tableSize;
        postgreActiveSession := reply.activeSessions;
      }
      isPostgreLoading := false;
    }

    /** `getMongoStat`: any answer is stored, whatever its status; the flag drops in `finally`. */
    method GetMongoStat(reply: MongoReply)
      modifies this
      ensures !isMongoLoading && isPostgreLoading == old(isPostgreLoading)
      ensures reply.MongoAnswered? ==> mongoStat == reply.data
      ensures reply.MongoThrown? ==> mongoStat == old(mongoStat)
      ensures postgreTableSize == old(postgreTableSize) && postgreActiveSession == old(postgreActiveSession)
      ensures searchText == old(searchText)
      ensures State() == old(State()).(mongoStat := mongoStat, isMongoLoading := false)
    {
      if reply.MongoAnswered? {
        mongoStat := reply.data;
      }
      isMongoLoading := false;
    }

    /** `handleSearch`: only the search text changes. */
    method HandleSearch(value: string)
      modifies this
      ensures searchText == value
      ensures postgreTableSize == old(postgreTableSize) && postgreActiveSession == old(postgreActiveSession)
      ensures mongoStat == old(mongoStat)
      ensures isPostgreLoading == old(isPostgreLoading) && isMongoLoading == old(isMongoLoading)
      ensures State() == old(State()).(searchText := value)
    {
      searchText := value;
    }

    /** The render: a spinner alone while either fetch is loading, the tables otherwise. */
    function Render(): (s: Screen)
      reads this
      ensures s == Spinner <==> isMongoLoading || isPostgreLoading
      ensures s.Tables? ==>
                s.tableSize == FilteredData(postgreTableSize, searchText)
                && s.activeSessions == postgreActiveSession && s.mongo == mongoStat
    {
      if isMongoLoading then Spinner
      else if isPostgreLoading then Spinner
      else Tables(FilteredData(postgreTableSize, searchText), postgreActiveSession, mongoStat)
    }
  }
}
