/** Per-card activity on the dashboard (`processCardActivity` and the
    reconciliation that follows it in `fetchData`): count the wallet's events
    per card, sum each card's CardSpent amounts, rank the cards by event
    count, then overwrite `spent` with the live figure of the matching card. */
module Activity {
  import opened Wrappers
  import opened Sequences
  import opened Ledger
  import opened CardEnumeration

  /** One entry of the "Most Active Cards" list; `spent` is in wei. */
  datatype Activity = Activity(cardId: nat, transactions: nat, spent: nat)

  predicate About(e: Event, id: nat) {
    e.args.cardId == Some(id)
  }

  /** How many of `events` carry `cardId == id`. */
  function CountFor(events: seq<Event>, id: nat): nat {
    if |events| == 0 then 0
    else CountFor(events[..|events| - 1], id) + (if About(events[|events| - 1], id) then 1 else 0)
  }

  predicate IsSpendOn(e: Event, id: nat) {
    IsKind(e, CardSpent) && About(e, id)
  }

  /** The sum of the amounts of the CardSpent events on card `id`; a missing
      amount counts as zero (`event.args.amount || BigNumber.from(0)`). */
  function SpentFor(events: seq<Event>, id: nat): nat {
    if |events| == 0 then 0
    else
      var e := events[|events| - 1];
      SpentFor(events[..|events| - 1], id) + (if IsSpendOn(e, id) then e.args.amount.GetOr(0) else 0)
  }

  /** The ids that some event carries. */
  function MentionedIds(events: seq<Event>): set<nat> {
    set i | 0 <= i < |events| && events[i].args.cardId.Some? :: events[i].args.cardId.value
  }

  /** One more than the largest card id an event carries. */
  function IdBound(events: seq<Event>): (b: nat)
    ensures forall i :: 0 <= i < |events| && events[i].args.cardId.Some? ==> events[i].args.cardId.value < b
  {
    if |events| == 0 then 0
    else
      var rest := IdBound(events[1..]);
      assert forall i :: 1 <= i < |events| ==> events[i] == events[1..][i - 1];
      match events[0].args.cardId
      case Some(id) => if id + 1 > rest then id + 1 else rest
      case None => rest
  }

  /** The members of `keys` below `n`, ascending: the order `Object.entries`
      lists integer-like keys in. */
  function KeysBelow(keys: set<nat>, n: nat): (r: seq<nat>)
    ensures forall i, j :: 0 <= i < j < |r| ==> r[i] < r[j]
    ensures forall i :: 0 <= i < |r| ==> r[i] in keys && r[i] < n
    ensures forall x :: x in keys && x < n ==> x in r
  {
    if n == 0 then []
    else
      var prefix := KeysBelow(keys, n - 1);
      prefix + (if n - 1 in keys then [n - 1] else [])
  }

  /** The entries before ranking, one per id of `ids`. */
  function Entries(events: seq<Event>, ids: seq<nat>): (r: seq<Activity>)
    ensures |r| == |ids|
    ensures forall k :: 0 <= k < |r| ==>
      r[k] == Activity(ids[k], CountFor(events, ids[k]), SpentFor(events, ids[k]))
  {
    seq(|ids|, k requires 0 <= k < |ids| =>
      Activity(ids[k], CountFor(events, ids[k]), SpentFor(events, ids[k])))
  }

  function Transactions(a: Activity): int { a.transactions }
  function CardIdOf(a: Activity): int { a.cardId }

  predicate Lists(r: seq<Activity>, id: nat) {
    exists k :: 0 <= k < |r| && r[k].cardId == id
  }

  /** Reference definition of the ranking: per-card entries for every
      mentioned id in ascending id order, stably sorted by event count. */
  function Ranking(events: seq<Event>): seq<Activity> {
    SortDesc(Unranked(events), Transactions)
  }

  /** The entries before ranking: one per mentioned id, ascending. */
  function Unranked(events: seq<Event>): seq<Activity> {
    Entries(events, KeysBelow(MentionedIds(events), IdBound(events)))
  }

  /** Before ranking, a card is listed exactly when some event mentions it. */
  lemma UnrankedLists(events: seq<Event>, id: nat)
    ensures Lists(Unranked(events), id) <==> id in MentionedIds(events)
  {
    var ids := KeysBelow(MentionedIds(events), IdBound(events));
    var entries := Unranked(events);
    if id in MentionedIds(events) {
      var i :| 0 <= i < |events| && events[i].args.cardId == Some(id);
      assert id < IdBound(events);
      assert id in ids;
      var k :| 0 <= k < |ids| && ids[k] == id;
      assert entries[k].cardId == id;
    }
    if Lists(entries, id) {
      var k :| 0 <= k < |entries| && entries[k].cardId == id;
      assert ids[k] == id;
    }
  }

  /** The ranking lists each mentioned card, and no other. */
  lemma RankingLists(events: seq<Event>, id: nat)
    ensures Lists(Ranking(events), id) <==> id in MentionedIds(events)
  {
    var entries := Unranked(events);
    var r := Ranking(events);
    SortDescSameElements(entries, Transactions);
    UnrankedLists(events, id);
    if Lists(entries, id) {
      var k :| 0 <= k < |entries| && entries[k].cardId == id;
      assert entries[k] in r;
      var m :| 0 <= m < |r| && r[m] == entries[k];
    }
    if Lists(r, id) {
      var m :| 0 <= m < |r| && r[m].cardId == id;
      assert r[m] in entries;
      var k :| 0 <= k < |entries| && entries[k] == r[m];
    }
  }

  /** Each ranked entry carries its card's event count and CardSpent total. */
  lemma RankingFigures(events: seq<Event>)
    ensures forall k :: 0 <= k < |Ranking(events)| ==>
      Ranking(events)[k].transactions == CountFor(events, Ranking(events)[k].cardId)
      && Ranking(events)[k].spent == SpentFor(events, Ranking(events)[k].cardId)
  {
    var entries := Unranked(events);
    var r := Ranking(events);
    SortDescSameElements(entries, Transactions);
    forall k | 0 <= k < |r|
      ensures r[k].transactions == CountFor(events, r[k].cardId)
      ensures r[k].spent == SpentFor(events, r[k].cardId)
    {
      assert r[k] in entries;
    }
  }

  /** Most active first; equal counts in ascending id order, because the
      entries start in ascending id order and the sort is stable. */
  lemma RankingOrder(events: seq<Event>)
    ensures RankedBy(Ranking(events), Transactions, CardIdOf)
  {
    var ids := KeysBelow(MentionedIds(events), IdBound(events));
    var entries := Unranked(events);
    assert StrictlyAscending(entries, CardIdOf) by {
      forall i, j | 0 <= i < j < |entries| ensures CardIdOf(entries[i]) < CardIdOf(entries[j]) {
        assert entries[i].cardId == ids[i] && entries[j].cardId == ids[j];
      }
    }
    StableSortRanks(entries, Transactions, CardIdOf);
  }

  /** How many of `events` carry a card id at all. */
  function CountWithId(events: seq<Event>): nat {
    if |events| == 0 then 0
    else CountWithId(events[..|events| - 1]) + (if events[|events| - 1].args.cardId.Some? then 1 else 0)
  }

  function SumTransactions(r: seq<Activity>): nat {
    if |r| == 0 then 0 else r[0].transactions + SumTransactions(r[1..])
  }

  /** The event counts of the cards `ids`, added up. */
  function SumCounts(events: seq<Event>, ids: seq<nat>): nat {
    if |ids| == 0 then 0 else CountFor(events, ids[0]) + SumCounts(events, ids[1..])
  }

  /** How often `x` occurs in `ids`. */
  function Occurrences(ids: seq<nat>, x: nat): nat {
    if |ids| == 0 then 0 else (if ids[0] == x then 1 else 0) + Occurrences(ids[1..], x)
  }

  predicate Distinct(ids: seq<nat>) {
    forall i, j :: 0 <= i < j < |ids| ==> ids[i] != ids[j]
  }

  lemma {:induction false} OccursOnce(ids: seq<nat>, x: nat)
    requires Distinct(ids)
    requires x in ids
    ensures Occurrences(ids, x) == 1
  {
    if ids[0] == x {
      NotOccurring(ids[1..], x);
    } else {
      OccursOnce(ids[1..], x);
    }
  }

  lemma {:induction false} NotOccurring(ids: seq<nat>, x: nat)
    requires x !in ids
    ensures Occurrences(ids, x) == 0
  {
    if |ids| > 0 {
      NotOccurring(ids[1..], x);
    }
  }

  lemma {:induction false} SumCountsOfNothing(ids: seq<nat>)
    ensures SumCounts([], ids) == 0
  {
    if |ids| > 0 {
      SumCountsOfNothing(ids[1..]);
    }
  }

  /** One more event adds one to the count of the card it mentions. */
  lemma {:induction false} SumCountsSnoc(events: seq<Event>, ids: seq<nat>)
    requires |events| > 0
    ensures SumCounts(events, ids) == SumCounts(events[..|events| - 1], ids)
      + (match events[|events| - 1].args.cardId
         case Some(x) => Occurrences(ids, x)
         case None => 0)
  {
    if |ids| > 0 {
      SumCountsSnoc(events, ids[1..]);
    }
  }

  /** Over distinct ids covering every mentioned card, the per-card counts add
      up to the number of events that carry a card id. */
  lemma {:induction false} CountsAddUp(events: seq<Event>, ids: seq<nat>)
    requires Distinct(ids)
    requires forall x :: x in MentionedIds(events) ==> x in ids
    ensures SumCounts(events, ids) == CountWithId(events)
  {
    if |events| == 0 {
      SumCountsOfNothing(ids);
    } else {
      var pre := events[..|events| - 1];
      var e := events[|events| - 1];
      forall x | x in MentionedIds(pre) ensures x in ids {
        var i :| 0 <= i < |pre| && pre[i].args.cardId == Some(x);
        assert events[i] == pre[i];
      }
      CountsAddUp(pre, ids);
      SumCountsSnoc(events, ids);
      if e.args.cardId.Some? {
        assert e.args.cardId.value in MentionedIds(events);
        OccursOnce(ids, e.args.cardId.value);
      }
    }
  }

  function IdsOf(r: seq<Activity>): (ids: seq<nat>)
    ensures |ids| == |r| && forall k :: 0 <= k < |r| ==> ids[k] == r[k].cardId
  {
    seq(|r|, k requires 0 <= k < |r| => r[k].cardId)
  }

  lemma {:induction false} SumTransactionsIsSumCounts(events: seq<Event>, r: seq<Activity>)
    requires forall k :: 0 <= k < |r| ==> r[k].transactions == CountFor(events, r[k].cardId)
    ensures SumTransactions(r) == SumCounts(events, IdsOf(r))
  {
    if |r| > 0 {
      SumTransactionsIsSumCounts(events, r[1..]);
      assert IdsOf(r)[1..] == IdsOf(r[1..]);
    }
  }

  /** The "transactions" figures of the ranking add up to the number of the
      wallet's events that carry a card id: events without one are ignored,
      and no event is counted twice. */
  lemma RankingCountsAddUp(events: seq<Event>)
    ensures SumTransactions(Ranking(events)) == CountWithId(events)
  {
    var r := Ranking(events);
    RankingFigures(events);
    RankingOrder(events);
    var ids := IdsOf(r);
    forall x | x in MentionedIds(events) ensures x in ids {
      RankingLists(events, x);
      var k :| 0 <= k < |r| && r[k].cardId == x;
      assert ids[k] == x;
    }
    assert Distinct(ids) by {
      forall i, j | 0 <= i < j < |ids| ensures ids[i] != ids[j] {
        assert Transactions(r[i]) > Transactions(r[j])
          || (Transactions(r[i]) == Transactions(r[j]) && CardIdOf(r[i]) < CardIdOf(r[j]));
      }
    }
    SumTransactionsIsSumCounts(events, r);
    CountsAddUp(events, ids);
  }

  /** One more event adds to the count, the spent total and the mentioned
      ids of the card it names, and of no other. */
  lemma TallySnoc(prefix: seq<Event>, e: Event)
    ensures MentionedIds(prefix + [e]) ==
      MentionedIds(prefix) + (if e.args.cardId.Some? then {e.args.cardId.value} else {})
    ensures forall id :: CountFor(prefix + [e], id) == CountFor(prefix, id) + (if About(e, id) then 1 else 0)
    ensures forall id ::
      SpentFor(prefix + [e], id) == SpentFor(prefix, id) + (if IsSpendOn(e, id) then e.args.amount.GetOr(0) else 0)
  {
    var s := prefix + [e];
    assert s[..|prefix|] == prefix;
    assert forall i :: 0 <= i < |prefix| ==> s[i] == prefix[i];
    assert s[|prefix|] == e;
  }

  /** A map entry read the way the source reads it: `(map[id] || 0)`. */
  function Get(m: map<nat, nat>, id: nat): nat {
    if id in m then m[id] else 0
  }

  /** The counting loop of `processCardActivity`: two maps keyed by card
      id, filled in one pass over the events. `bound` exceeds every key. */
  method Tally(events: seq<Event>) returns (usage: map<nat, nat>, spentBy: map<nat, nat>, bound: nat)
    ensures usage.Keys == MentionedIds(events)
    ensures forall id :: Get(usage, id) == CountFor(events, id)
    ensures forall id :: Get(spentBy, id) == SpentFor(events, id)
    ensures forall id :: id in usage ==> id < bound
  {
    usage, spentBy, bound := map[], map[], 0;
    var i := 0;
    while i < |events|
      invariant 0 <= i <= |events|
      invariant usage.Keys == MentionedIds(events[..i])
      invariant forall id :: Get(usage, id) == CountFor(events[..i], id)
      invariant forall id :: Get(spentBy, id) == SpentFor(events[..i], id)
      invariant forall id :: id in usage ==> id < bound
    {
      var e := events[i];
      assert events[..i + 1] == events[..i] + [e];
      TallySnoc(events[..i], e);
      match e.args.cardId {
        case Some(id) =>
          usage := usage[id := Get(usage, id) + 1];
          if IsKind(e, CardSpent) {
            spentBy := spentBy[id := Get(spentBy, id) + e.args.amount.GetOr(0)];
          }
          if bound <= id {
            bound := id + 1;
          }
        case None =>
      }
      i := i + 1;
    }
    assert events[..|events|] == events;
  }

  /** `processCardActivity` as written: the counting loop, then
      `Object.entries` (ascending ids) sorted by count. It agrees with the
      reference ranking. */
  method ProcessCardActivity(events: seq<Event>) returns (r: seq<Activity>)
    ensures r == Ranking(events)
  {
    var usage, spentBy, bound := Tally(events);
    var ids := KeysBelow(usage.Keys, bound);
    assert ids == KeysBelow(MentionedIds(events), IdBound(events)) by {
      SameKeysBelow(usage.Keys, bound, IdBound(events));
    }
    var entries := seq(|ids|, k requires 0 <= k < |ids| =>
      Activity(ids[k], usage[ids[k]], Get(spentBy, ids[k])));
    assert entries == Entries(events, ids);
    r := SortDesc(entries, Transactions);
  }

  /** Listing keys below any bound that exceeds them all gives the same list. */
  lemma {:induction false} SameKeysBelow(keys: set<nat>, b1: nat, b2: nat)
    requires forall k :: k in keys ==> k < b1 && k < b2
    ensures KeysBelow(keys, b1) == KeysBelow(keys, b2)
  {
    if b1 < b2 {
      KeysBelowPastLargest(keys, b1, b2);
    } else if b2 < b1 {
      KeysBelowPastLargest(keys, b2, b1);
    }
  }

  lemma {:induction false} KeysBelowPastLargest(keys: set<nat>, lo: nat, hi: nat)
    requires lo <= hi
    requires forall k :: k in keys ==> k < lo
    ensures KeysBelow(keys, hi) == KeysBelow(keys, lo)
    decreases hi - lo
  {
    if lo < hi {
      KeysBelowPastLargest(keys, lo, hi - 1);
    }
  }
}

/** The second half of the dashboard's activity pipeline: the live
    `amountSpent` of each fetched card replaces the event-derived total. */
module Reconciliation {
  import opened Wrappers
  import opened Sequences
  import opened Ledger
  import opened CardEnumeration
  import opened Activity

  /** `fetchedCards.find(fc => fc.id.toString() === card.cardId)`: the first
      card with that id, if any. */
  function FindCard(cards: seq<Card>, id: nat): (r: Option<Card>)
    ensures r.None? <==> !HasId(cards, id)
    ensures r.Some? ==> r.value in cards && r.value.id == id
  {
    if |cards| == 0 then None
    else if cards[0].id == id then Some(cards[0])
    else
      var r := FindCard(cards[1..], id);
      assert forall k :: 1 <= k < |cards| ==> cards[k] == cards[1..][k - 1];
      r
  }

  /** With ids in strictly ascending order (as enumeration yields them) the
      card found is the one card carrying that id. */
  lemma {:induction false} FindCardUnique(cards: seq<Card>, k: nat)
    requires StrictlyAscending(cards, (c: Card) => c.id)
    requires k < |cards|
    ensures FindCard(cards, cards[k].id) == Some(cards[k])
  {
    if k > 0 {
      assert cards[0].id < cards[k].id;
      assert cards[1..][k - 1] == cards[k];
      FindCardUnique(cards[1..], k - 1);
    }
  }

  function ReconcileOne(a: Activity, cards: seq<Card>): Activity {
    match FindCard(cards, a.cardId)
    case Some(c) => a.(spent := c.amountSpent)
    case None => a
  }

  /** `activity.map(...)` in `fetchData`: an entry whose card was fetched
      takes that card's live `amountSpent`; every other entry is unchanged.
      Card id, count and position never change. */
  function Reconcile(activity: seq<Activity>, cards: seq<Card>): (r: seq<Activity>)
    ensures |r| == |activity|
    ensures forall k :: 0 <= k < |r| ==>
      r[k].cardId == activity[k].cardId && r[k].transactions == activity[k].transactions
    ensures forall k :: 0 <= k < |r| && !HasId(cards, activity[k].cardId) ==> r[k] == activity[k]
    ensures forall k :: 0 <= k < |r| && HasId(cards, activity[k].cardId) ==>
      exists c :: c in cards && c.id == activity[k].cardId && r[k].spent == c.amountSpent
  {
    seq(|activity|, k requires 0 <= k < |activity| => ReconcileOne(activity[k], cards))
  }

  /** Reconciling only touches `spent`, so the ranking order survives it. */
  lemma ReconcileKeepsRanking(activity: seq<Activity>, cards: seq<Card>)
    requires RankedBy(activity, Transactions, CardIdOf)
    ensures RankedBy(Reconcile(activity, cards), Transactions, CardIdOf)
  {
    var r := Reconcile(activity, cards);
    forall i, j | 0 <= i < j < |r|
      ensures Transactions(r[i]) > Transactions(r[j])
        || (Transactions(r[i]) == Transactions(r[j]) && CardIdOf(r[i]) < CardIdOf(r[j]))
    {
      assert Transactions(activity[i]) > Transactions(activity[j])
        || (Transactions(activity[i]) == Transactions(activity[j]) && CardIdOf(activity[i]) < CardIdOf(activity[j]));
    }
  }

  /** Reconciling twice against the same cards changes nothing more. */
  lemma ReconcileIdempotent(activity: seq<Activity>, cards: seq<Card>)
    ensures Reconcile(Reconcile(activity, cards), cards) == Reconcile(activity, cards)
  {
    var r := Reconcile(activity, cards);
    var rr := Reconcile(r, cards);
    forall k | 0 <= k < |r| ensures rr[k] == r[k] {
      assert r[k] == ReconcileOne(activity[k], cards);
      assert rr[k] == ReconcileOne(r[k], cards);
    }
  }

  /** Against the enumerated cards, an entry whose card is among them shows
      exactly that card's live `amountSpent`. */
  lemma ReconcileAgainstEnumeration(activity: seq<Activity>, cards: seq<Card>, k: nat, m: nat)
    requires StrictlyAscending(cards, (c: Card) => c.id)
    requires k < |activity| && m < |cards|
    requires cards[m].id == activity[k].cardId
    ensures Reconcile(activity, cards)[k].spent == cards[m].amountSpent
  {
    FindCardUnique(cards, m);
    assert Reconcile(activity, cards)[k] == ReconcileOne(activity[k], cards);
  }
}
