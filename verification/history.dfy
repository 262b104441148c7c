/** The history page (`fetchEvents` and `formatEventData`): fetch every event
    of the six kinds, stamp and sort them newest first, find the cards the
    wallet created, and keep the wallet's creations plus every other event on
    one of those cards. */
module History {
  import opened Wrappers
  import opened Addresses
  import opened Sequences
  import opened Ledger

  const HistoryKinds: seq<Kind> :=
    [CardCreated, CardDeposited, CardWithdrawn, CardSpent, CardStatusChanged, SpendingLimitChanged]

  /** `allEvents` after its sort: every logged event of the six kinds, each
      stamped with its block's time, newest first. */
  function AllEvents(log: seq<Event>, blockTime: nat -> nat): (r: seq<Event>)
    ensures NonIncreasing(r, (e: Event) => e.timestamp)
    ensures multiset(r) == multiset(ResolveTimestamps(FetchKinds(log, HistoryKinds), blockTime))
    ensures forall e :: e in r <==>
      exists e0 :: e0 in log && KindOf(e0.name).Some? && e == Stamp(e0, blockTime)
  {
    var stamped := ResolveTimestamps(FetchKinds(log, HistoryKinds), blockTime);
    StampedMembers(log, blockTime);
    NewestFirstSameEvents(stamped);
    NewestFirst(stamped)
  }

  /** The six kinds are all the kinds there are. */
  lemma HistoryKindsAll(k: Kind)
    ensures k in HistoryKinds
  {
  }

  /** The stamped query results are the stamped log events with a known name. */
  lemma StampedMembers(log: seq<Event>, blockTime: nat -> nat)
    ensures forall e :: e in ResolveTimestamps(FetchKinds(log, HistoryKinds), blockTime) <==>
      exists e0 :: e0 in log && KindOf(e0.name).Some? && e == Stamp(e0, blockTime)
  {
    forall e | e in ResolveTimestamps(FetchKinds(log, HistoryKinds), blockTime)
      ensures exists e0 :: e0 in log && KindOf(e0.name).Some? && e == Stamp(e0, blockTime)
    {
      StampedFromLog(log, blockTime, e);
    }
    forall e0 | e0 in log && KindOf(e0.name).Some?
      ensures Stamp(e0, blockTime) in ResolveTimestamps(FetchKinds(log, HistoryKinds), blockTime)
    {
      LogStamped(log, blockTime, e0);
    }
  }

  lemma StampedFromLog(log: seq<Event>, blockTime: nat -> nat, e: Event)
    requires e in ResolveTimestamps(FetchKinds(log, HistoryKinds), blockTime)
    ensures exists e0 :: e0 in log && KindOf(e0.name).Some? && e == Stamp(e0, blockTime)
  {
    var fetched := FetchKinds(log, HistoryKinds);
    var stamped := ResolveTimestamps(fetched, blockTime);
    var i :| 0 <= i < |stamped| && stamped[i] == e;
    assert fetched[i] in fetched;
    var k :| k in HistoryKinds && IsKind(fetched[i], k);
    KindNameRoundTrip(k, fetched[i].name);
  }

  lemma LogStamped(log: seq<Event>, blockTime: nat -> nat, e0: Event)
    requires e0 in log && KindOf(e0.name).Some?
    ensures Stamp(e0, blockTime) in ResolveTimestamps(FetchKinds(log, HistoryKinds), blockTime)
  {
    var fetched := FetchKinds(log, HistoryKinds);
    var stamped := ResolveTimestamps(fetched, blockTime);
    var k := KindOf(e0.name).value;
    HistoryKindsAll(k);
    assert IsKind(e0, k);
    assert e0 in fetched;
    var i :| 0 <= i < |fetched| && fetched[i] == e0;
    assert stamped[i] == Stamp(e0, blockTime);
  }

  /** A CardCreated event whose owner is the wallet, ignoring case. */
  predicate CreatedBy(e: Event, wallet: Address) {
    IsKind(e, CardCreated) && e.args.owner.Some? && SameAddress(e.args.owner.value, wallet)
  }

  /** `userCards`: the ids of the cards the wallet created. */
  function OwnedIds(events: seq<Event>, wallet: Address): set<nat> {
    set i | 0 <= i < |events| && CreatedBy(events[i], wallet) && events[i].args.cardId.Some?
      :: events[i].args.cardId.value
  }

  /** The `allEvents.filter` callback. */
  predicate Keep(e: Event, owned: set<nat>, wallet: Address) {
    if IsKind(e, CardCreated) then CreatedBy(e, wallet)
    else e.args.cardId.Some? && e.args.cardId.value in owned
  }

  /** `userEvents`. */
  function UserEvents(events: seq<Event>, wallet: Address): seq<Event> {
    Filter(events, e => Keep(e, OwnedIds(events, wallet), wallet))
  }

  /** The two passes throw: `owner.toLowerCase()` on a creation without an
      owner, or `cardId.toString()` on the wallet's creation without an id. */
  predicate CreationsReadable(events: seq<Event>, wallet: Address) {
    forall i :: 0 <= i < |events| && IsKind(events[i], CardCreated) ==>
      events[i].args.owner.Some?
      && (SameAddress(events[i].args.owner.value, wallet) ==> events[i].args.cardId.Some?)
  }

  /** `fetchEvents`: the events to list, or a failure that leaves the page's
      list as it was. None when no wallet is connected (nothing happens). */
  function FetchEvents(log: seq<Event>, blockTime: nat -> nat, wallet: Address): (r: Option<Result<seq<Event>, string>>)
    ensures wallet == "" <==> r.None?
    ensures r.Some? ==> (r.value.Failure? <==> !CreationsReadable(AllEvents(log, blockTime), wallet))
    ensures r.Some? && r.value.Success? ==>
      r.value.value == UserEvents(AllEvents(log, blockTime), wallet)
      && NonIncreasing(r.value.value, (e: Event) => e.timestamp)
      && IsSubsequence(r.value.value, AllEvents(log, blockTime))
  {
    if wallet == "" then None
    else
      var all := AllEvents(log, blockTime);
      if !CreationsReadable(all, wallet) then Some(Failure("Failed to load transaction history"))
      else
        var kept := UserEvents(all, wallet);
        FilterIsSubsequence(all, e => Keep(e, OwnedIds(all, wallet), wallet));
        SubsequenceKeepsOrder(kept, all, (e: Event) => e.timestamp);
        Some(Success(kept))
  }

  /** Which events the history shows: the wallet's own creations, and any
      other event whose card id is one the wallet created in the batch. */
  lemma UserEventsMembership(events: seq<Event>, wallet: Address, e: Event)
    ensures e in UserEvents(events, wallet) <==>
      e in events
      && (if IsKind(e, CardCreated) then CreatedBy(e, wallet)
          else (e.args.cardId.Some?
                && exists i :: 0 <= i < |events| && CreatedBy(events[i], wallet)
                     && events[i].args.cardId == e.args.cardId))
  {
    var owned := OwnedIds(events, wallet);
    if e.args.cardId.Some? && e.args.cardId.value in owned {
      var i :| 0 <= i < |events| && CreatedBy(events[i], wallet) && events[i].args.cardId.Some?
        && events[i].args.cardId.value == e.args.cardId.value;
    }
    if e in events && !IsKind(e, CardCreated) && e.args.cardId.Some?
      && exists i :: 0 <= i < |events| && CreatedBy(events[i], wallet) && events[i].args.cardId == e.args.cardId
    {
      var i :| 0 <= i < |events| && CreatedBy(events[i], wallet) && events[i].args.cardId == e.args.cardId;
      assert e.args.cardId.value in owned;
    }
  }

  /** Every one of the wallet's creations survives the filter, and nothing
      else is a creation by the wallet, so the owned set is unchanged. */
  lemma OwnedIdsPreserved(events: seq<Event>, wallet: Address)
    ensures OwnedIds(UserEvents(events, wallet), wallet) == OwnedIds(events, wallet)
  {
    var kept := UserEvents(events, wallet);
    var owned := OwnedIds(events, wallet);
    forall id | id in owned ensures id in OwnedIds(kept, wallet) {
      var i :| 0 <= i < |events| && CreatedBy(events[i], wallet) && events[i].args.cardId == Some(id);
      assert events[i] in kept;
      var j :| 0 <= j < |kept| && kept[j] == events[i];
    }
    forall id | id in OwnedIds(kept, wallet) ensures id in owned {
      var j :| 0 <= j < |kept| && CreatedBy(kept[j], wallet) && kept[j].args.cardId == Some(id);
      assert kept[j] in events;
      var i :| 0 <= i < |events| && events[i] == kept[j];
    }
  }

  /** Filtering the history a second time changes nothing. */
  lemma UserEventsIdempotent(events: seq<Event>, wallet: Address)
    ensures UserEvents(UserEvents(events, wallet), wallet) == UserEvents(events, wallet)
  {
    var kept := UserEvents(events, wallet);
    var p := e => Keep(e, OwnedIds(events, wallet), wallet);
    var q := e => Keep(e, OwnedIds(kept, wallet), wallet);
    OwnedIdsPreserved(events, wallet);
    FilterCongruent(kept, q, p);
    FilterIdempotent(events, p);
  }

  /** The two-pass design's blind spot: if the wallet's only creation of card
      `x` is missing from the batch, every other event on card `x` vanishes
      from the history too. */
  lemma MissingCreationHidesCard(events: seq<Event>, wallet: Address, k: nat, x: nat)
    requires k < |events|
    requires CreatedBy(events[k], wallet) && events[k].args.cardId == Some(x)
    requires forall j :: 0 <= j < |events| && j != k && CreatedBy(events[j], wallet) ==> events[j].args.cardId != Some(x)
    ensures forall e :: e in UserEvents(events[..k] + events[k + 1..], wallet) ==>
      IsKind(e, CardCreated) || e.args.cardId != Some(x)
  {
    var rest := events[..k] + events[k + 1..];
    forall j | 0 <= j < |rest| && CreatedBy(rest[j], wallet) ensures rest[j].args.cardId != Some(x) {
      if j < k {
        assert rest[j] == events[j];
      } else {
        assert rest[j] == events[j + 1];
      }
    }
    assert x !in OwnedIds(rest, wallet);
  }

  /** What one row of the history shows, besides its icon. */
  datatype Detail =
    | CreatedWithLimit(limit: Option<nat>)
    | Deposited(amount: Option<nat>)
    | Withdrawn(amount: Option<nat>)
    | Spent(amount: Option<nat>)
    | StatusSet(activated: bool)
    | LimitSet(newLimit: Option<nat>)

  datatype EventView = EventView(title: string, cardId: Option<nat>, detail: Detail, timestamp: int)

  /** `formatEventData`: a row for each of the six kinds, null for any other
      event name. */
  function FormatEventData(e: Event): (r: Option<EventView>)
    ensures r.Some? <==> KindOf(e.name).Some?
    ensures r.Some? ==> r.value.cardId == e.args.cardId && r.value.timestamp == e.timestamp
  {
    match KindOf(e.name)
    case None => None
    case Some(k) =>
      var a := e.args;
      Some(match k
        case CardCreated => EventView("Card Created", a.cardId, CreatedWithLimit(a.spendingLimit), e.timestamp)
        case CardDeposited => EventView("Deposit", a.cardId, Deposited(a.amount), e.timestamp)
        case CardWithdrawn => EventView("Withdrawal", a.cardId, Withdrawn(a.amount), e.timestamp)
        case CardSpent => EventView("Spent", a.cardId, Spent(a.amount), e.timestamp)
        case CardStatusChanged => EventView("Status Changed", a.cardId, StatusSet(a.isActive == Some(true)), e.timestamp)
        case SpendingLimitChanged => EventView("Limit Changed", a.cardId, LimitSet(a.newLimit), e.timestamp))
  }

  /** Each kind gets its own title, so a row's title tells its kind. */
  lemma TitlesTellKinds(e1: Event, e2: Event)
    requires FormatEventData(e1).Some? && FormatEventData(e2).Some?
    requires FormatEventData(e1).value.title == FormatEventData(e2).value.title
    ensures KindOf(e1.name) == KindOf(e2.name)
  {
  }

  /** The rendered list: rows for the events the formatter accepts, in order. */
  function Render(events: seq<Event>): (r: seq<EventView>)
    ensures |r| <= |events|
    ensures forall v :: v in r <==> exists i :: 0 <= i < |events| && FormatEventData(events[i]) == Some(v)
  {
    if |events| == 0 then []
    else
      assert forall i :: 0 < i < |events| ==> events[1..][i - 1] == events[i];
      match FormatEventData(events[0])
      case Some(v) => [v] + Render(events[1..])
      case None => Render(events[1..])
  }

  /** An event `formatEventData` gives a row for. */
  predicate Formattable(e: Event) {
    FormatEventData(e).Some?
  }

  function ViewOf(e: Event): EventView
    requires Formattable(e)
  {
    FormatEventData(e).value
  }

  /** The rows of events all of which format. */
  function Views(events: seq<Event>): (r: seq<EventView>)
    requires forall i :: 0 <= i < |events| ==> Formattable(events[i])
    ensures |r| == |events|
  {
    seq(|events|, i requires 0 <= i < |events| && Formattable(events[i]) => ViewOf(events[i]))
  }

  /** The list is the formatted rows of exactly the formattable events, kept in
      their order: unformattable events are skipped and nothing is reordered. */
  lemma {:induction false} RenderFormatsFiltered(events: seq<Event>)
    ensures Render(events) == Views(Filter(events, Formattable))
  {
    if |events| > 0 {
      var tail := events[1..];
      RenderFormatsFiltered(tail);
      var head := if Formattable(events[0]) then [events[0]] else [];
      var rest := Filter(tail, Formattable);
      assert Filter(events, Formattable) == head + rest;
      ViewsAppend(head, rest);
      if Formattable(events[0]) {
        assert Views(head) == [ViewOf(events[0])];
        assert Render(events) == [ViewOf(events[0])] + Render(tail);
      } else {
        assert Render(events) == Render(tail);
      }
    }
  }

  lemma ViewsAppend(a: seq<Event>, b: seq<Event>)
    requires forall i :: 0 <= i < |a| ==> Formattable(a[i])
    requires forall i :: 0 <= i < |b| ==> Formattable(b[i])
    ensures Views(a + b) == Views(a) + Views(b)
  {
    assert forall i :: 0 <= i < |b| ==> (a + b)[|a| + i] == b[i];
  }

  /** Every fetched event has one of the six names, so every kept event is
      rendered: row `i` is event `i`, formatted. */
  lemma {:induction false} RenderAllKnown(events: seq<Event>)
    requires forall i :: 0 <= i < |events| ==> KindOf(events[i].name).Some?
    ensures |Render(events)| == |events|
    ensures forall i :: 0 <= i < |events| ==> Render(events)[i] == FormatEventData(events[i]).value
  {
    if |events| > 0 {
      var tail := events[1..];
      assert forall i :: 0 <= i < |tail| ==> tail[i] == events[i + 1];
      RenderAllKnown(tail);
      var rows := Render(events);
      assert rows == [FormatEventData(events[0]).value] + Render(tail);
      forall i | 0 <= i < |events| ensures rows[i] == FormatEventData(events[i]).value {
        if i > 0 {
          assert rows[i] == Render(tail)[i - 1];
        }
      }
    }
  }

  /** Events the history fetches all carry one of the six names. */
  lemma AllEventsKnown(log: seq<Event>, blockTime: nat -> nat)
    ensures forall i :: 0 <= i < |AllEvents(log, blockTime)| ==> KindOf(AllEvents(log, blockTime)[i].name).Some?
  {
    var fetched := FetchKinds(log, HistoryKinds);
    var stamped := ResolveTimestamps(fetched, blockTime);
    var all := AllEvents(log, blockTime);
    NewestFirstSameEvents(stamped);
    forall i | 0 <= i < |all| ensures KindOf(all[i].name).Some? {
      assert all[i] in stamped;
      var j :| 0 <= j < |stamped| && stamped[j] == all[i];
      assert fetched[j] in fetched;
      var k :| k in HistoryKinds && IsKind(fetched[j], k);
      KindNameRoundTrip(k, fetched[j].name);
    }
  }
}
