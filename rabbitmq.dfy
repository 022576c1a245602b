// The message-queue statistics page: the uptime formatter, the order in which
// queue cards are laid out, and the operation rows inside one queue card.

module RabbitMq {
  import opened Wrappers
  import opened Text

  // ---------------------------------------------------------------------
  // formatMs
  // ---------------------------------------------------------------------

  /**
   * The pieces `formatMs` prints: either the raw milliseconds, or each of
   * days, hours, minutes and seconds when its string is non-empty.
   */
  datatype Reading =
    | Millis(ms: nat)
    | Units(days: Option<nat>, hours: Option<nat>, minutes: Option<nat>, seconds: Option<nat>)

  /** The value a unit contributes: its printed number, or 0 when it is not printed. */
  function Shown(u: Option<nat>): nat {
    match u
    case None => 0
    case Some(n) => n
  }

  /** Which units `formatMs` prints for `ms` milliseconds, and with which numbers. */
  function Layout(ms: nat): (r: Reading)
    ensures r.Millis? <==> ms < 1000
    ensures r.Millis? ==> r.ms == ms
    ensures r.Units? ==>
      var seconds := ms / 1000;
      var minutes := seconds / 60;
      var hours := minutes / 60;
      var days := hours / 24;
      && (r.days.Some? <==> days > 0)
      && (r.hours.Some? <==> days > 0 || hours % 24 > 0)
      && (r.minutes.Some? <==> days > 0 || hours % 24 > 0 || minutes % 60 > 0)
      && r.seconds.Some?
      && (r.days.Some? ==> r.hours.Some? && r.minutes.Some?)
      && Shown(r.hours) < 24 && Shown(r.minutes) < 60 && Shown(r.seconds) < 60
  {
    var seconds := ms / 1000;
    var minutes := seconds / 60;
    var hours := minutes / 60;
    var days := hours / 24;
    if days == 0 && hours == 0 && minutes == 0 && seconds == 0 then
      Millis(ms)
    else
      Units(
        if days > 0 then Some(days) else None,
        if days > 0 || hours % 24 > 0 then Some(hours % 24) else None,
        if days > 0 || hours % 24 > 0 || minutes % 60 > 0 then Some(minutes % 60) else None,
        if days > 0 || hours % 24 > 0 || minutes % 60 > 0 || seconds % 60 > 0 then Some(seconds % 60) else None)
  }

  /** One unit's text, e.g. `"3 hours "`, or `""` when the unit is not printed. */
  function Part(u: Option<nat>, suffix: string): string {
    match u
    case None => ""
    case Some(n) => NatToString(n) + suffix
  }

  function Render(r: Reading): string {
    match r
    case Millis(ms) => NatToString(ms) + " ms"
    case Units(d, h, m, s) => Part(d, " days ") + Part(h, " hours ") + Part(m, " minutes ") + Part(s, " seconds")
  }

  /** `formatMs(ms)` for a whole, non-negative number of milliseconds. */
  function FormatMs(ms: nat): string {
    Render(Layout(ms))
  }

  predicate EndsWith(s: string, suffix: string) {
    |suffix| <= |s| && s[|s| - |suffix|..] == suffix
  }

  /** The output ends in `" ms"` (and is then `"<ms> ms"`) exactly when `ms < 1000`. */
  lemma FormatMsMillisExactly(ms: nat)
    ensures ms < 1000 ==> FormatMs(ms) == NatToString(ms) + " ms"
    ensures EndsWith(FormatMs(ms), " ms") <==> ms < 1000
  {
    if ms < 1000 {
      var out := FormatMs(ms);
      assert out == NatToString(ms) + " ms";
      assert out[|out| - 3..] == " ms";
    } else {
      SecondsLast(ms);
    }
  }

  /** From one second up the output ends with the seconds, so not in `" ms"`. */
  lemma SecondsLast(ms: nat)
    requires ms >= 1000
    ensures !EndsWith(FormatMs(ms), " ms")
  {
    var r := Layout(ms);
    assert r.Units? && r.seconds.Some?;
    var head := Part(r.days, " days ") + Part(r.hours, " hours ") + Part(r.minutes, " minutes ");
    var tail := NatToString(r.seconds.value) + " seconds";
    var out := head + tail;
    assert FormatMs(ms) == out;
    assert out[|out| - 3] == tail[|tail| - 3] == 'n';
  }

  /** The printed units recompose the whole seconds; the sub-second part is dropped. */
  lemma FormatMsRecomposes(ms: nat)
    requires ms >= 1000
    ensures var r := Layout(ms);
            Shown(r.days) * 86400 + Shown(r.hours) * 3600 + Shown(r.minutes) * 60 + Shown(r.seconds) == ms / 1000
  {
    var seconds := ms / 1000;
    var minutes := seconds / 60;
    var hours := minutes / 60;
    var days := hours / 24;
    assert seconds == minutes * 60 + seconds % 60;
    assert minutes == hours * 60 + minutes % 60;
    assert hours == days * 24 + hours % 24;
    var r := Layout(ms);
    // A unit that is not printed is zero, so it contributes nothing either way.
    assert Shown(r.days) == days;
    assert Shown(r.hours) == hours % 24 by {
      if days == 0 && hours % 24 == 0 { assert hours == 0; }
    }
    assert Shown(r.minutes) == minutes % 60 by {
      if days == 0 && hours % 24 == 0 && minutes % 60 == 0 { assert minutes == 0; }
    }
    assert Shown(r.seconds) == seconds % 60;
    calc {
      days * 86400 + (hours % 24) * 3600 + (minutes % 60) * 60 + seconds % 60;
      ((days * 24 + hours % 24) * 60 + minutes % 60) * 60 + seconds % 60;
      (hours * 60 + minutes % 60) * 60 + seconds % 60;
      minutes * 60 + seconds % 60;
      seconds;
    }
  }

  // ---------------------------------------------------------------------
  // Queue cards
  // ---------------------------------------------------------------------

  /** The counters of `message_stats` that the card shows, with their rates. */
  datatype MessageStats = MessageStats(
    publish: nat, publishRate: real,
    deliver: nat, deliverRate: real,
    get: nat, getRate: real,
    ack: nat, ackRate: real)

  datatype Queue = Queue(
    name: string,
    messages: nat,
    messagesReady: nat,
    messagesUnacknowledged: nat,
    consumers: nat,
    state: string,
    messageStats: Option<MessageStats>)

  datatype OperationRow = OperationRow(operation: string, count: nat, rate: real)

  datatype QueueCard = NoData(title: string) | StatsCard(title: string, rows: seq<OperationRow>)

  /** The operation labels of the card's table, top to bottom. */
  const Operations: seq<string> := ["Publish", "Deliver", "Get", "Acknowledge"]

  /** The counter and rate that belong to one operation label. */
  function Counter(s: MessageStats, operation: string): (nat, real)
    requires operation in Operations
  {
    if operation == "Publish" then (s.publish, s.publishRate)
    else if operation == "Deliver" then (s.deliver, s.deliverRate)
    else if operation == "Get" then (s.get, s.getRate)
    else (s.ack, s.ackRate)
  }

  /** `QueueStatisticsCard`: a "no data" card without `message_stats`, else four operation rows. */
  function CardFor(q: Queue): (c: QueueCard)
    ensures c.title == q.name
    ensures c.NoData? <==> q.messageStats.None?
    ensures c.StatsCard? ==>
              |c.rows| == 4
              && forall i :: 0 <= i < 4 ==>
                   c.rows[i].operation == Operations[i]
                   && (c.rows[i].count, c.rows[i].rate) == Counter(q.messageStats.value, Operations[i])
  {
    match q.messageStats
    case None => NoData(q.name)
    case Some(s) =>
      StatsCard(q.name, [
        OperationRow("Publish", s.publish, s.publishRate),
        OperationRow("Deliver", s.deliver, s.deliverRate),
        OperationRow("Get", s.get, s.getRate),
        OperationRow("Acknowledge", s.ack, s.ackRate)])
  }

  predicate HasStats(q: Queue) {
    q.messageStats.Some?
  }

  function WithStats(qs: seq<Queue>): (r: seq<Queue>)
    ensures forall i :: 0 <= i < |r| ==> HasStats(r[i])
  {
    if qs == [] then []
    else (if HasStats(qs[0]) then [qs[0]] else []) + WithStats(qs[1..])
  }

  function WithoutStats(qs: seq<Queue>): (r: seq<Queue>)
    ensures forall i :: 0 <= i < |r| ==> !HasStats(r[i])
  {
    if qs == [] then []
    else (if HasStats(qs[0]) then [] else [qs[0]]) + WithoutStats(qs[1..])
  }

  /** The order a stable sort on "has `message_stats`" (descending) produces. */
  function StatsFirst(qs: seq<Queue>): seq<Queue> {
    WithStats(qs) + WithoutStats(qs)
  }

  lemma {:induction false} StatsFirstIsPermutation(qs: seq<Queue>)
    ensures multiset(StatsFirst(qs)) == multiset(qs)
  {
    if qs != [] {
      StatsFirstIsPermutation(qs[1..]);
      assert qs == [qs[0]] + qs[1..];
    }
  }

  lemma {:induction false} StatsFirstLength(qs: seq<Queue>)
    ensures |StatsFirst(qs)| == |qs|
  {
    if qs != [] {
      StatsFirstLength(qs[1..]);
    }
  }

  /** Every queue with statistics comes before every queue without. */
  lemma StatsFirstOrdered(qs: seq<Queue>)
    ensures forall i, j :: 0 <= i < j < |StatsFirst(qs)| && HasStats(StatsFirst(qs)[j]) ==> HasStats(StatsFirst(qs)[i])
  {
    var r := StatsFirst(qs);
    var w := |WithStats(qs)|;
    assert forall k :: 0 <= k < w ==> r[k] == WithStats(qs)[k];
    assert forall k :: w <= k < |r| ==> r[k] == WithoutStats(qs)[k - w];
  }

  /** The page sorts its `queues` state array in place before drawing the cards. */
  method SortQueues(queues: array<Queue>)
    modifies queues
    ensures queues[..] == StatsFirst(old(queues[..]))
  {
    var withStats, withoutStats := Partition(queues);
    StatsFirstLength(queues[..]);
    Overwrite(queues, withStats + withoutStats);
  }

  /** One pass over the array collecting the two runs of the stable sort, each in array order. */
  method Partition(queues: array<Queue>) returns (withStats: seq<Queue>, withoutStats: seq<Queue>)
    ensures withStats == WithStats(queues[..]) && withoutStats == WithoutStats(queues[..])
  {
    withStats, withoutStats := [], [];
    var i := 0;
    while i < queues.Length
      invariant 0 <= i <= queues.Length
      invariant withStats == WithStats(queues[..i])
      invariant withoutStats == WithoutStats(queues[..i])
    {
      SplitStep(queues[..], i);
      assert queues[..][..i] == queues[..i] && queues[..][..i + 1] == queues[..i + 1];
      if queues[i].messageStats.Some? {
        withStats := withStats + [queues[i]];
      } else {
        withoutStats := withoutStats + [queues[i]];
      }
      i := i + 1;
    }
    assert queues[..queues.Length] == queues[..];
  }

  /** Writes the sorted order back into the array, slot by slot. */
  method Overwrite(queues: array<Queue>, ordered: seq<Queue>)
    requires |ordered| == queues.Length
    modifies queues
    ensures queues[..] == ordered
  {
    var j := 0;
    while j < queues.Length
      invariant 0 <= j <= queues.Length
      invariant forall k :: 0 <= k < j ==> queues[k] == ordered[k]
    {
      queues[j] := ordered[j];
      j := j + 1;
    }
  }

  /** Extending the scanned prefix by one queue extends exactly one of the two runs. */
  lemma {:induction false} SplitStep(qs: seq<Queue>, i: nat)
    requires i < |qs|
    ensures WithStats(qs[..i + 1]) == WithStats(qs[..i]) + (if HasStats(qs[i]) then [qs[i]] else [])
    ensures WithoutStats(qs[..i + 1]) == WithoutStats(qs[..i]) + (if HasStats(qs[i]) then [] else [qs[i]])
    decreases i
  {
    if i > 0 {
      assert qs[..i + 1][1..] == qs[1..][..i];
      assert qs[..i][1..] == qs[1..][..i - 1];
      SplitStep(qs[1..], i - 1);
    }
  }

  /** The cards in display order. */
  function Cards(qs: seq<Queue>): (cs: seq<QueueCard>)
    ensures |cs| == |qs|
    ensures forall i :: 0 <= i < |qs| ==> cs[i] == CardFor(qs[i])
  {
    if qs == [] then [] else [CardFor(qs[0])] + Cards(qs[1..])
  }

  /** After sorting, every "no data" card follows every card with operation rows. */
  lemma NoDataCardsLast(qs: seq<Queue>)
    ensures var cs := Cards(StatsFirst(qs));
            forall i, j :: 0 <= i < j < |cs| && cs[j].StatsCard? ==> cs[i].StatsCard?
  {
    StatsFirstOrdered(qs);
  }
}
