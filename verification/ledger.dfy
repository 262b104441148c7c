/** The data the pages read from the SmartCard contract: card records returned
    by `getCardInfo`, and event logs returned by `queryFilter`, one query per
    event kind. The contract itself is not part of this model; the pages only
    see these values. */
module Ledger {
  import opened Wrappers
  import opened Addresses
  import opened Sequences

  /** The tuple `getCardInfo(id)` resolves to; amounts are in wei. */
  datatype CardInfo = CardInfo(owner: Address, balance: nat, limit: nat, spent: nat, active: bool)

  /** `getCardInfo` as the pages experience it: a card, or None when the call
      throws (no card at that id, or any other failure: the pages catch both
      the same way). */
  type CardLedger = nat -> Option<CardInfo>

  /** One owned card as the pages keep it after enumeration. */
  datatype Card = Card(id: nat, balance: nat, spendingLimit: nat, amountSpent: nat, isActive: bool)

  /** The record a page builds from a probed card at id `id`. */
  function CardAt(id: nat, info: CardInfo): (c: Card)
    ensures c.id == id && c.balance == info.balance && c.spendingLimit == info.limit
    ensures c.amountSpent == info.spent && c.isActive == info.active
  {
    Card(id, info.balance, info.limit, info.spent, info.active)
  }

  /** The six event kinds the contract emits. */
  datatype Kind =
    | CardCreated
    | CardDeposited
    | CardWithdrawn
    | CardSpent
    | CardStatusChanged
    | SpendingLimitChanged
  {
    /** The event name, as found in ethers' `event.event`. */
    function Name(): string {
      match this
      case CardCreated => "CardCreated"
      case CardDeposited => "CardDeposited"
      case CardWithdrawn => "CardWithdrawn"
      case CardSpent => "CardSpent"
      case CardStatusChanged => "CardStatusChanged"
      case SpendingLimitChanged => "SpendingLimitChanged"
    }
  }

  /** The kind an event name denotes, if it is one of the six. */
  function KindOf(name: string): (k: Option<Kind>)
    ensures k.Some? ==> k.value.Name() == name
  {
    if name == "CardCreated" then Some(CardCreated)
    else if name == "CardDeposited" then Some(CardDeposited)
    else if name == "CardWithdrawn" then Some(CardWithdrawn)
    else if name == "CardSpent" then Some(CardSpent)
    else if name == "CardStatusChanged" then Some(CardStatusChanged)
    else if name == "SpendingLimitChanged" then Some(SpendingLimitChanged)
    else None
  }

  /** Names and kinds correspond one to one. */
  lemma KindNameRoundTrip(k: Kind, name: string)
    ensures KindOf(k.Name()) == Some(k)
    ensures KindOf(name) == Some(k) <==> name == k.Name()
  {
  }

  /** The decoded arguments of an event log. Which of them a log carries
      depends on its kind; a missing one reads as `undefined`. */
  datatype Args = Args(
    cardId: Option<nat>,
    owner: Option<Address>,
    from: Option<Address>,
    recipient: Option<Address>,
    amount: Option<nat>,
    spendingLimit: Option<nat>,
    newLimit: Option<nat>,
    isActive: Option<bool>)

  /** An event log: its name, arguments, position in the chain, and the
      millisecond timestamp the page attaches after looking up its block. */
  datatype Event = Event(name: string, args: Args, blockNumber: nat, logIndex: nat, timestamp: int)

  predicate IsKind(e: Event, k: Kind) {
    e.name == k.Name()
  }

  /** `contract.queryFilter(contract.filters.<k>(), 0, "latest")` over the
      contract's whole log, in log order. */
  function QueryFilter(log: seq<Event>, k: Kind): (r: seq<Event>)
    ensures forall i :: 0 <= i < |r| ==> IsKind(r[i], k) && r[i] in log
    ensures forall i :: 0 <= i < |log| && IsKind(log[i], k) ==> log[i] in r
  {
    Filter(log, e => IsKind(e, k))
  }

  /** `(await Promise.all(kinds.map(queryFilter))).flat()`: the per-kind
      results concatenated in the order the kinds are listed. */
  function FetchKinds(log: seq<Event>, kinds: seq<Kind>): (r: seq<Event>)
    ensures forall e :: e in r <==> e in log && exists k :: k in kinds && IsKind(e, k)
  {
    if |kinds| == 0 then []
    else
      var head := QueryFilter(log, kinds[0]);
      var tail := FetchKinds(log, kinds[1..]);
      assert forall k :: k in kinds <==> k == kinds[0] || k in kinds[1..];
      head + tail
  }

  /** `e` with the millisecond time of the block it was mined in;
      `blockTime` stands for `provider.getBlock(..).timestamp`. */
  function Stamp(e: Event, blockTime: nat -> nat): Event {
    e.(timestamp := blockTime(e.blockNumber) * 1000)
  }

  /** Replaces every event's timestamp with `block.timestamp * 1000` of the
      block it was mined in. */
  function ResolveTimestamps(events: seq<Event>, blockTime: nat -> nat): (r: seq<Event>)
    ensures |r| == |events|
    ensures forall i :: 0 <= i < |r| ==> r[i] == Stamp(events[i], blockTime)
  {
    seq(|events|, i requires 0 <= i < |events| => Stamp(events[i], blockTime))
  }

  /** Events mined in the same block get the same timestamp, and the timestamp
      is a whole number of seconds. */
  lemma SameBlockSameTimestamp(events: seq<Event>, blockTime: nat -> nat, i: nat, j: nat)
    requires i < |events| && j < |events|
    requires events[i].blockNumber == events[j].blockNumber
    ensures ResolveTimestamps(events, blockTime)[i].timestamp
         == ResolveTimestamps(events, blockTime)[j].timestamp
    ensures ResolveTimestamps(events, blockTime)[i].timestamp % 1000 == 0
  {
  }

  /** `events.sort((a, b) => b.timestamp - a.timestamp)` */
  function NewestFirst(events: seq<Event>): (r: seq<Event>)
    ensures NonIncreasing(r, (e: Event) => e.timestamp)
    ensures multiset(r) == multiset(events)
  {
    SortDesc(events, (e: Event) => e.timestamp)
  }

  /** Sorting newest first neither adds nor drops an event. */
  lemma NewestFirstSameEvents(events: seq<Event>)
    ensures forall e :: e in NewestFirst(events) <==> e in events
    ensures |NewestFirst(events)| == |events|
  {
    SortDescSameElements(events, (e: Event) => e.timestamp);
  }
}
