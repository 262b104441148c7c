/** The dashboard's "Transaction Volume" chart (`getChartData`): the wallet's
    newest-first events are bucketed by local calendar day, amounts summed per
    day, and the last seven day keys of the bucket object are plotted.
    `day` stands for `new Date(t).toLocaleDateString()`, as a day number. */
module DailyVolume {
  import opened Wrappers
  import opened Sequences
  import opened Ledger

  /** `tx.args.amount ? amount : 0` */
  function AmountOf(e: Event): nat {
    e.args.amount.GetOr(0)
  }

  predicate DayPresent(txs: seq<Event>, day: int -> int, d: int) {
    exists i :: 0 <= i < |txs| && day(txs[i].timestamp) == d
  }

  /** The position of the first event on day `d`, or `|txs|` if there is none. */
  function FirstOn(txs: seq<Event>, day: int -> int, d: int): (k: nat)
    ensures k <= |txs|
    ensures forall j :: 0 <= j < k ==> day(txs[j].timestamp) != d
    ensures k < |txs| ==> day(txs[k].timestamp) == d
  {
    if |txs| == 0 then 0
    else if day(txs[0].timestamp) == d then 0
    else
      assert forall j :: 0 < j < |txs| ==> txs[1..][j - 1] == txs[j];
      1 + FirstOn(txs[1..], day, d)
  }

  /** Appending an event leaves the first occurrence of an earlier day where
      it was, and a new day first occurs at the appended event. */
  lemma FirstOnSnoc(txs: seq<Event>, day: int -> int, d: int)
    requires |txs| > 0
    ensures DayPresent(txs[..|txs| - 1], day, d) ==>
      FirstOn(txs, day, d) == FirstOn(txs[..|txs| - 1], day, d) < |txs| - 1
    ensures !DayPresent(txs[..|txs| - 1], day, d) && day(txs[|txs| - 1].timestamp) == d ==>
      FirstOn(txs, day, d) == |txs| - 1
  {
    var pre := txs[..|txs| - 1];
    assert forall j :: 0 <= j < |pre| ==> pre[j] == txs[j];
    if DayPresent(pre, day, d) {
      var w :| 0 <= w < |pre| && day(pre[w].timestamp) == d;
      var k := FirstOn(pre, day, d);
      assert k <= w;
      assert day(txs[k].timestamp) == d;
    }
  }

  /** The keys of `dailyVolume` in insertion order: each day once, in the
      order it first occurs. */
  function DayKeys(txs: seq<Event>, day: int -> int): (r: seq<int>)
    ensures forall i, j :: 0 <= i < j < |r| ==> r[i] != r[j]
    ensures forall d :: d in r <==> DayPresent(txs, day, d)
    ensures |txs| > 0 ==> |r| > 0 && r[0] == day(txs[0].timestamp)
  {
    if |txs| == 0 then []
    else
      var pre := DayKeys(txs[..|txs| - 1], day);
      var d := day(txs[|txs| - 1].timestamp);
      assert forall i :: 0 <= i < |txs| - 1 ==> txs[..|txs| - 1][i] == txs[i];
      assert forall x :: DayPresent(txs, day, x) <==> DayPresent(txs[..|txs| - 1], day, x) || x == d;
      if d in pre then pre else pre + [d]
  }

  /** The keys run in the order their days first occur among the events:
      `Object.keys` lists string keys in insertion order. */
  lemma {:induction false} DayKeysFirstOccurrence(txs: seq<Event>, day: int -> int)
    ensures forall i, j :: 0 <= i < j < |DayKeys(txs, day)| ==>
      FirstOn(txs, day, DayKeys(txs, day)[i]) < FirstOn(txs, day, DayKeys(txs, day)[j])
  {
    if |txs| > 0 {
      var pre := txs[..|txs| - 1];
      var keys := DayKeys(pre, day);
      var d := day(txs[|txs| - 1].timestamp);
      DayKeysFirstOccurrence(pre, day);
      forall i | 0 <= i < |keys|
        ensures FirstOn(txs, day, keys[i]) == FirstOn(pre, day, keys[i]) < |txs| - 1
      {
        assert keys[i] in keys;
        FirstOnSnoc(txs, day, keys[i]);
      }
      if d !in keys {
        assert !DayPresent(pre, day, d);
        FirstOnSnoc(txs, day, d);
        var r := keys + [d];
        forall i, j | 0 <= i < j < |r| ensures FirstOn(txs, day, r[i]) < FirstOn(txs, day, r[j]) {
          if j < |keys| {
            assert r[i] == keys[i] && r[j] == keys[j];
            assert FirstOn(pre, day, keys[i]) < FirstOn(pre, day, keys[j]);
          } else {
            assert r[i] == keys[i] && r[j] == d;
          }
        }
      }
    }
  }

  /** `dailyVolume[d]`: the amounts of the events on day `d`, added up. */
  function Volume(txs: seq<Event>, day: int -> int, d: int): nat {
    if |txs| == 0 then 0
    else
      var e := txs[|txs| - 1];
      Volume(txs[..|txs| - 1], day, d) + (if day(e.timestamp) == d then AmountOf(e) else 0)
  }

  /** How many day keys are plotted. */
  const ChartDays: nat := 7

  /** One plotted point: a day label and that day's volume. */
  datatype Point = Point(day: int, volume: nat)

  function Points(txs: seq<Event>, day: int -> int, days: seq<int>): (r: seq<Point>)
    ensures |r| == |days|
    ensures forall k :: 0 <= k < |r| ==> r[k] == Point(days[k], Volume(txs, day, days[k]))
  {
    seq(|days|, k requires 0 <= k < |days| => Point(days[k], Volume(txs, day, days[k])))
  }

  /** `getChartData` as written: `Object.keys(dailyVolume).slice(-7)`, the
      last seven keys in first-occurrence order. */
  function ChartData(txs: seq<Event>, day: int -> int): seq<Point> {
    Points(txs, day, Shown(DayKeys(txs, day)))
  }

  /** The day keys `ChartData` plots. */
  function Shown(keys: seq<int>): (r: seq<int>)
    ensures |r| == if |keys| > ChartDays then ChartDays else |keys|
    ensures forall k :: 0 <= k < |r| ==> r[k] == keys[|keys| - |r| + k]
  {
    if |keys| > ChartDays then keys[|keys| - ChartDays..] else keys
  }

  /** The chart shows at most seven points, each a distinct day on which the
      wallet has events, with that day's summed volume. */
  lemma ChartDataContents(txs: seq<Event>, day: int -> int)
    ensures var r := ChartData(txs, day);
      && |r| == (if |DayKeys(txs, day)| > ChartDays then ChartDays else |DayKeys(txs, day)|)
      && (forall i, j :: 0 <= i < j < |r| ==> r[i].day != r[j].day)
      && (forall k :: 0 <= k < |r| ==> DayPresent(txs, day, r[k].day) && r[k].volume == Volume(txs, day, r[k].day))
  {
    var keys := DayKeys(txs, day);
    var shown := Shown(keys);
    var r := ChartData(txs, day);
    assert r == Points(txs, day, shown);
    forall k | 0 <= k < |r| ensures DayPresent(txs, day, r[k].day) {
      assert keys[|keys| - |shown| + k] in keys;
    }
  }

  /** With seven distinct days or fewer, every day with events is plotted; no
      empty day is invented in between. */
  lemma ChartDataCoversFewDays(txs: seq<Event>, day: int -> int, d: int)
    requires |DayKeys(txs, day)| <= ChartDays
    requires DayPresent(txs, day, d)
    ensures exists k :: 0 <= k < |ChartData(txs, day)| && ChartData(txs, day)[k].day == d
  {
    var keys := DayKeys(txs, day);
    assert d in keys;
    var k :| 0 <= k < |keys| && keys[k] == d;
    assert ChartData(txs, day)[k].day == d;
  }

  /** Timestamps used directly as day numbers, for the examples. */
  function DayIsTimestamp(t: int): int {
    t
  }

  /** Events on days 9, 7, 7 and 2 (newest first), amounts 1, 2, 3 and 4. */
  function FourSpends(): seq<Event> {
    [Tx(9, 1), Tx(7, 2), Tx(7, 3), Tx(2, 4)]
  }

  lemma FourSpendsDays()
    ensures DayKeys(FourSpends(), DayIsTimestamp) == [9, 7, 2]
  {
    var txs := FourSpends();
    var day := DayIsTimestamp;
    assert txs[..1] == [Tx(9, 1)];
    assert txs[..2][..1] == txs[..1];
    assert txs[..3][..2] == txs[..2];
    assert txs[..1][..0] == [];
    assert DayKeys(txs[..1], day) == [9];
    assert DayKeys(txs[..2], day) == [9, 7];
    assert DayKeys(txs[..3], day) == [9, 7];
  }

  lemma FourSpendsVolumes()
    ensures Volume(FourSpends(), DayIsTimestamp, 9) == 1
    ensures Volume(FourSpends(), DayIsTimestamp, 7) == 5
    ensures Volume(FourSpends(), DayIsTimestamp, 2) == 4
  {
    var txs := FourSpends();
    var day := DayIsTimestamp;
    assert txs[..1] == [Tx(9, 1)];
    assert txs[..2][..1] == txs[..1];
    assert txs[..3][..2] == txs[..2];
    assert txs[..1][..0] == [];
    assert Volume(txs[..1], day, 7) == 0;
    assert Volume(txs[..3], day, 7) == 5;
    assert Volume(txs[..1], day, 9) == 1;
    assert Volume(txs[..2], day, 9) == 1;
    assert Volume(txs[..3], day, 9) == 1;
    assert Volume(txs[..1], day, 2) == 0;
    assert Volume(txs[..2], day, 2) == 0;
    assert Volume(txs[..3], day, 2) == 0;
  }

  /** A worked example: events on days 9, 7, 7 and 2 (newest
      first) with amounts 1, 2, 3 and 4 plot three points, 9:1, 7:5 and 2:4. */
  lemma ChartDataExample()
    ensures ChartData(FourSpends(), DayIsTimestamp) == [Point(9, 1), Point(7, 5), Point(2, 4)]
  {
    FourSpendsDays();
    FourSpendsVolumes();
  }

  /** A CardSpent event with the given timestamp and amount, for examples. */
  function Tx(timestamp: int, amount: nat): Event {
    Event("CardSpent", Args(Some(0), None, None, None, Some(amount), None, None, None), 0, 0, timestamp)
  }

  /** `day` never maps a later moment to an earlier day. */
  ghost predicate MonotoneDays(day: int -> int) {
    forall a, b :: a <= b ==> day(a) <= day(b)
  }

  /** On newest-first input the first-occurrence order of days runs from the
      newest day to the oldest. */
  lemma {:induction false} DayKeysDescend(txs: seq<Event>, day: int -> int)
    requires NonIncreasing(txs, (e: Event) => e.timestamp)
    requires MonotoneDays(day)
    ensures forall i, j :: 0 <= i < j < |DayKeys(txs, day)| ==> DayKeys(txs, day)[i] > DayKeys(txs, day)[j]
  {
    if |txs| > 0 {
      var pre := txs[..|txs| - 1];
      var last := txs[|txs| - 1];
      assert forall i, j :: 0 <= i < j < |pre| ==> pre[i] == txs[i] && pre[j] == txs[j];
      DayKeysDescend(pre, day);
      var keys := DayKeys(pre, day);
      forall x | x in keys ensures day(last.timestamp) <= x {
        var i :| 0 <= i < |pre| && day(pre[i].timestamp) == x;
        assert pre[i] == txs[i];
        assert txs[i].timestamp >= last.timestamp;
      }
      if day(last.timestamp) !in keys {
        forall i | 0 <= i < |keys| ensures keys[i] > day(last.timestamp) {
          assert keys[i] in keys;
        }
      }
    }
  }

  /** As written, once the wallet has events on more than seven distinct days
      the newest day is missing from the chart: the keys run newest first, and
      `slice(-7)` keeps the seven oldest. */
  lemma NewestDayDropped(txs: seq<Event>, day: int -> int)
    requires |DayKeys(txs, day)| > ChartDays
    ensures |txs| > 0
    ensures forall k :: 0 <= k < |ChartData(txs, day)| ==> ChartData(txs, day)[k].day != day(txs[0].timestamp)
  {
    var keys := DayKeys(txs, day);
    var r := ChartData(txs, day);
    forall k | 0 <= k < |r| ensures r[k].day != day(txs[0].timestamp) {
      assert r[k].day == keys[|keys| - ChartDays + k];
    }
  }

  /** Eight events on eight consecutive days, newest first. */
  function EightDays(): seq<Event> {
    [Tx(8, 1), Tx(7, 1), Tx(6, 1), Tx(5, 1), Tx(4, 1), Tx(3, 1), Tx(2, 1), Tx(1, 1)]
  }

  /** Events on strictly descending days each open a new day key. */
  lemma {:induction false} DescendingDaysAllKeys(txs: seq<Event>, day: int -> int)
    requires forall i, j :: 0 <= i < j < |txs| ==> day(txs[i].timestamp) > day(txs[j].timestamp)
    ensures |DayKeys(txs, day)| == |txs|
  {
    if |txs| > 0 {
      var pre := txs[..|txs| - 1];
      var last := txs[|txs| - 1];
      assert forall i, j :: 0 <= i < j < |pre| ==> pre[i] == txs[i] && pre[j] == txs[j];
      DescendingDaysAllKeys(pre, day);
    }
  }

  /** Concrete input for the above: with events on days 8 down to 1 the chart
      plots days 7 down to 1 and leaves out day 8, the most recent. */
  lemma EightDaysDropsNewest()
    ensures var r := ChartData(EightDays(), DayIsTimestamp); forall k :: 0 <= k < |r| ==> r[k].day != 8
  {
    var txs := EightDays();
    var day := DayIsTimestamp;
    assert forall i :: 0 <= i < |txs| ==> txs[i].timestamp == 8 - i;
    DescendingDaysAllKeys(txs, day);
    NewestDayDropped(txs, day);
  }

  /** The evidently intended chart: the seven most recent days, oldest to
      newest from left to right. */
  function RecentChartData(txs: seq<Event>, day: int -> int): (r: seq<Point>)
    ensures |r| <= ChartDays
    ensures forall k :: 0 <= k < |r| ==> DayPresent(txs, day, r[k].day) && r[k].volume == Volume(txs, day, r[k].day)
  {
    RecentDaysPresent(DayKeys(txs, day), txs, day);
    Points(txs, day, Recent(DayKeys(txs, day)))
  }

  function Reverse(s: seq<int>): (r: seq<int>)
    ensures |r| == |s|
    ensures forall k :: 0 <= k < |s| ==> r[k] == s[|s| - 1 - k]
  {
    seq(|s|, k requires 0 <= k < |s| => s[|s| - 1 - k])
  }

  /** The day keys `RecentChartData` plots, oldest first. */
  function Recent(keys: seq<int>): (r: seq<int>)
    ensures |r| == if |keys| > ChartDays then ChartDays else |keys|
    ensures forall k :: 0 <= k < |r| ==> r[k] == keys[|r| - 1 - k]
  {
    Reverse(if |keys| > ChartDays then keys[..ChartDays] else keys)
  }

  lemma RecentDaysPresent(keys: seq<int>, txs: seq<Event>, day: int -> int)
    requires keys == DayKeys(txs, day)
    ensures forall k :: 0 <= k < |Recent(keys)| ==> DayPresent(txs, day, Recent(keys)[k])
  {
    forall k | 0 <= k < |Recent(keys)| ensures DayPresent(txs, day, Recent(keys)[k]) {
      assert keys[|Recent(keys)| - 1 - k] in keys;
    }
  }

  /** On newest-first input the corrected chart plots days in chronological
      order and includes the newest day. */
  lemma RecentChartDataShowsNewest(txs: seq<Event>, day: int -> int)
    requires NonIncreasing(txs, (e: Event) => e.timestamp)
    requires MonotoneDays(day)
    ensures var r := RecentChartData(txs, day);
      && (forall i, j :: 0 <= i < j < |r| ==> r[i].day < r[j].day)
      && (|txs| > 0 ==> |r| > 0 && r[|r| - 1].day == day(txs[0].timestamp))
  {
    var keys := DayKeys(txs, day);
    DayKeysDescend(txs, day);
    var shown := Recent(keys);
    var r := RecentChartData(txs, day);
    assert r == Points(txs, day, shown);
  }

  /** Every day the corrected chart leaves out is older than every day it
      shows: it keeps the seven most recent days. */
  lemma RecentChartDataDropsOnlyOlder(txs: seq<Event>, day: int -> int, d: int)
    requires NonIncreasing(txs, (e: Event) => e.timestamp)
    requires MonotoneDays(day)
    requires DayPresent(txs, day, d)
    ensures var r := RecentChartData(txs, day);
      (exists m :: 0 <= m < |r| && r[m].day == d) || (forall k :: 0 <= k < |r| ==> d < r[k].day)
  {
    var keys := DayKeys(txs, day);
    DayKeysDescend(txs, day);
    var shown := Recent(keys);
    var r := RecentChartData(txs, day);
    assert r == Points(txs, day, shown);
    assert d in keys;
    var i :| 0 <= i < |keys| && keys[i] == d;
    if i < |shown| {
      assert r[|shown| - 1 - i].day == d;
    } else {
      forall k | 0 <= k < |r| ensures d < r[k].day {
        assert r[k].day == keys[|shown| - 1 - k];
      }
    }
  }
}
