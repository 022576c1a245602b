// The group-by step shared by the proxy page's chart reducers: walk the rows in
// order, and for each row either add its amount to the group that already has
// its key (`acc.find(...)` then `+=`) or push a new group at the end.

module Grouping {

  /** One accumulated entry: a key and the running sum of its amounts. */
  datatype Group<K> = Group(key: K, total: int)

  /** A row to be grouped: its key and the amount it contributes. */
  datatype Row<K> = Row(key: K, amount: int)

  /** One reducer step: bump the group with this key, or append a new one. */
  function Add<K(==)>(acc: seq<Group<K>>, r: Row<K>): seq<Group<K>> {
    if acc == [] then [Group(r.key, r.amount)]
    else if acc[0].key == r.key then [Group(r.key, acc[0].total + r.amount)] + acc[1..]
    else [acc[0]] + Add(acc[1..], r)
  }

  /** The reducer over all rows, from an empty accumulator, left to right. */
  function GroupBy<K(==)>(rows: seq<Row<K>>): seq<Group<K>>
    decreases |rows|
  {
    if rows == [] then [] else Add(GroupBy(rows[..|rows| - 1]), rows[|rows| - 1])
  }

  // ---------------------------------------------------------------------
  // Reference definitions
  // ---------------------------------------------------------------------

  function Keys<K(==)>(gs: seq<Group<K>>): (ks: seq<K>)
    ensures |ks| == |gs|
    ensures forall i :: 0 <= i < |gs| ==> ks[i] == gs[i].key
  {
    if gs == [] then [] else [gs[0].key] + Keys(gs[1..])
  }

  function RowKeys<K(==)>(rows: seq<Row<K>>): (ks: seq<K>)
    ensures |ks| == |rows|
    ensures forall i :: 0 <= i < |rows| ==> ks[i] == rows[i].key
  {
    if rows == [] then [] else [rows[0].key] + RowKeys(rows[1..])
  }

  /** The distinct keys in order of first appearance. */
  function FirstSeen<K(==)>(ks: seq<K>): seq<K>
    decreases |ks|
  {
    if ks == [] then []
    else
      var prior := FirstSeen(ks[..|ks| - 1]);
      if ks[|ks| - 1] in prior then prior else prior + [ks[|ks| - 1]]
  }

  /** The sum of the amounts of the rows with key `k`. */
  function SumFor<K(==)>(rows: seq<Row<K>>, k: K): int
    decreases |rows|
  {
    if rows == [] then 0
    else SumFor(rows[..|rows| - 1], k) + (if rows[|rows| - 1].key == k then rows[|rows| - 1].amount else 0)
  }

  /** The sum of all amounts. */
  function Sum<K(==)>(rows: seq<Row<K>>): int
    decreases |rows|
  {
    if rows == [] then 0 else Sum(rows[..|rows| - 1]) + rows[|rows| - 1].amount
  }

  function Totals<K(==)>(gs: seq<Group<K>>): int {
    if gs == [] then 0 else gs[0].total + Totals(gs[1..])
  }

  predicate DistinctKeys<K(==)>(gs: seq<Group<K>>) {
    forall i, j :: 0 <= i < j < |gs| ==> gs[i].key != gs[j].key
  }

  /** The total stored under key `k`, or 0 when there is no such group. */
  function TotalOf<K(==)>(gs: seq<Group<K>>, k: K): int {
    if gs == [] then 0 else (if gs[0].key == k then gs[0].total else 0) + TotalOf(gs[1..], k)
  }

  // ---------------------------------------------------------------------
  // Properties of one step
  // ---------------------------------------------------------------------

  lemma {:induction false} AddKeys<K>(acc: seq<Group<K>>, r: Row<K>)
    ensures Keys(Add(acc, r)) == if r.key in Keys(acc) then Keys(acc) else Keys(acc) + [r.key]
    decreases |acc|
  {
    if acc != [] && acc[0].key != r.key {
      AddKeys(acc[1..], r);
      assert Keys(acc) == [acc[0].key] + Keys(acc[1..]);
      assert Keys(Add(acc, r)) == [acc[0].key] + Keys(Add(acc[1..], r));
    }
  }

  lemma {:induction false} AddTotals<K>(acc: seq<Group<K>>, r: Row<K>)
    ensures Totals(Add(acc, r)) == Totals(acc) + r.amount
    decreases |acc|
  {
    if acc != [] && acc[0].key != r.key {
      AddTotals(acc[1..], r);
    }
  }

  lemma {:induction false} AddTotalOf<K>(acc: seq<Group<K>>, r: Row<K>, k: K)
    ensures TotalOf(Add(acc, r), k) == TotalOf(acc, k) + (if r.key == k then r.amount else 0)
    decreases |acc|
  {
    if acc != [] && acc[0].key != r.key {
      AddTotalOf(acc[1..], r, k);
    }
  }

  // ---------------------------------------------------------------------
  // Properties of the whole reduction
  // ---------------------------------------------------------------------

  /** The groups appear in first-seen order of their keys, one per distinct key. */
  lemma {:induction false} GroupByKeys<K>(rows: seq<Row<K>>)
    ensures Keys(GroupBy(rows)) == FirstSeen(RowKeys(rows))
    decreases |rows|
  {
    if rows != [] {
      var init, last := rows[..|rows| - 1], rows[|rows| - 1];
      GroupByKeys(init);
      AddKeys(GroupBy(init), last);
      RowKeysInit(rows);
      var ks := RowKeys(rows);
      calc {
        FirstSeen(ks);
        if last.key in FirstSeen(RowKeys(init)) then FirstSeen(RowKeys(init))
        else FirstSeen(RowKeys(init)) + [last.key];
        if last.key in Keys(GroupBy(init)) then Keys(GroupBy(init)) else Keys(GroupBy(init)) + [last.key];
        Keys(Add(GroupBy(init), last));
      }
    }
  }

  lemma RowKeysInit<K>(rows: seq<Row<K>>)
    requires rows != []
    ensures RowKeys(rows)[..|rows| - 1] == RowKeys(rows[..|rows| - 1])
    ensures RowKeys(rows)[|rows| - 1] == rows[|rows| - 1].key
  {
    var n := |rows|;
    var ks, ki := RowKeys(rows), RowKeys(rows[..n - 1]);
    assert |ks[..n - 1]| == |ki|;
    forall i | 0 <= i < n - 1
      ensures ks[..n - 1][i] == ki[i]
    {
      assert ks[i] == rows[i].key && ki[i] == rows[..n - 1][i].key;
    }
  }

  lemma {:induction false} FirstSeenDistinct<K>(ks: seq<K>)
    ensures forall i, j :: 0 <= i < j < |FirstSeen(ks)| ==> FirstSeen(ks)[i] != FirstSeen(ks)[j]
    ensures forall k :: k in FirstSeen(ks) <==> k in ks
    decreases |ks|
  {
    if ks != [] {
      FirstSeenDistinct(ks[..|ks| - 1]);
      assert ks == ks[..|ks| - 1] + [ks[|ks| - 1]];
    }
  }

  /** Exactly one group per distinct key of the input. */
  lemma GroupByOnePerKey<K>(rows: seq<Row<K>>)
    ensures DistinctKeys(GroupBy(rows))
    ensures forall k :: k in Keys(GroupBy(rows)) <==> k in RowKeys(rows)
  {
    GroupByKeys(rows);
    FirstSeenDistinct(RowKeys(rows));
    var gs := GroupBy(rows);
    assert forall i :: 0 <= i < |gs| ==> Keys(gs)[i] == gs[i].key;
  }

  /** The total stored under each key is the sum of that key's amounts. */
  lemma {:induction false} GroupByTotalOf<K>(rows: seq<Row<K>>, k: K)
    ensures TotalOf(GroupBy(rows), k) == SumFor(rows, k)
    decreases |rows|
  {
    if rows != [] {
      GroupByTotalOf(rows[..|rows| - 1], k);
      AddTotalOf(GroupBy(rows[..|rows| - 1]), rows[|rows| - 1], k);
    }
  }

  /** With distinct keys, the total stored under a key is that group's own total. */
  lemma {:induction false} TotalOfAt<K>(gs: seq<Group<K>>, i: nat)
    requires DistinctKeys(gs) && i < |gs|
    ensures TotalOf(gs, gs[i].key) == gs[i].total
    decreases |gs|
  {
    if i == 0 {
      TotalOfAbsent(gs[1..], gs[0].key);
    } else {
      TotalOfAt(gs[1..], i - 1);
    }
  }

  lemma {:induction false} TotalOfAbsent<K>(gs: seq<Group<K>>, k: K)
    requires forall i :: 0 <= i < |gs| ==> gs[i].key != k
    ensures TotalOf(gs, k) == 0
    decreases |gs|
  {
    if gs != [] {
      TotalOfAbsent(gs[1..], k);
    }
  }

  /** Each group's total is the sum of the amounts of the rows with its key. */
  lemma GroupByTotals<K>(rows: seq<Row<K>>)
    ensures forall i :: 0 <= i < |GroupBy(rows)| ==> GroupBy(rows)[i].total == SumFor(rows, GroupBy(rows)[i].key)
  {
    var gs := GroupBy(rows);
    GroupByOnePerKey(rows);
    forall i | 0 <= i < |gs|
      ensures gs[i].total == SumFor(rows, gs[i].key)
    {
      TotalOfAt(gs, i);
      GroupByTotalOf(rows, gs[i].key);
    }
  }

  /** Nothing is lost or counted twice: the group totals add up to the sum of all amounts. */
  lemma {:induction false} GroupByConserves<K>(rows: seq<Row<K>>)
    ensures Totals(GroupBy(rows)) == Sum(rows)
    decreases |rows|
  {
    if rows != [] {
      GroupByConserves(rows[..|rows| - 1]);
      AddTotals(GroupBy(rows[..|rows| - 1]), rows[|rows| - 1]);
    }
  }

  /** Appending one row to the input is one more reducer step. */
  lemma GroupBySnoc<K>(rows: seq<Row<K>>, r: Row<K>)
    ensures GroupBy(rows + [r]) == Add(GroupBy(rows), r)
  {
    assert (rows + [r])[..|rows|] == rows;
  }

  // ---------------------------------------------------------------------
  // The imperative step: `acc.find(...)`, then update in place or push
  // ---------------------------------------------------------------------

  /** Add agrees with "the first group with the key gets the amount". */
  lemma {:induction false} AddAt<K>(acc: seq<Group<K>>, r: Row<K>, i: nat)
    requires i <= |acc|
    requires forall j :: 0 <= j < i ==> acc[j].key != r.key
    requires i < |acc| ==> acc[i].key == r.key
    ensures i < |acc| ==> Add(acc, r) == acc[i := Group(r.key, acc[i].total + r.amount)]
    ensures i == |acc| ==> Add(acc, r) == acc + [Group(r.key, r.amount)]
    decreases |acc|
  {
    if acc != [] && i > 0 {
      AddAt(acc[1..], r, i - 1);
      if i < |acc| {
        assert acc[i := Group(r.key, acc[i].total + r.amount)]
            == [acc[0]] + acc[1..][i - 1 := Group(r.key, acc[i].total + r.amount)];
      } else {
        assert acc + [Group(r.key, r.amount)] == [acc[0]] + (acc[1..] + [Group(r.key, r.amount)]);
      }
    }
  }

  /** One reducer step as the source performs it: a linear `find`, then `+=` or `push`. */
  method Accumulate<K(==)>(acc: seq<Group<K>>, r: Row<K>) returns (next: seq<Group<K>>)
    ensures next == Add(acc, r)
  {
    var i := 0;
    while i < |acc| && acc[i].key != r.key
      invariant 0 <= i <= |acc|
      invariant forall j :: 0 <= j < i ==> acc[j].key != r.key
    {
      i := i + 1;
    }
    AddAt(acc, r, i);
    if i < |acc| {
      next := acc[i := Group(r.key, acc[i].total + r.amount)];
    } else {
      next := acc + [Group(r.key, r.amount)];
    }
  }
}
