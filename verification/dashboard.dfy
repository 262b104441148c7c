/** The dashboard's `fetchData`: enumerate the wallet's cards while adding up
    their balances, spent amounts and limits; collect the wallet's events of
    four kinds, newest first; rank card activity and reconcile it with the
    fetched cards; and publish the summary figures. */
module Dashboard {
  import opened Wrappers
  import opened Addresses
  import opened Sequences
  import opened Ledger
  import opened CardEnumeration
  import opened Activity
  import opened Reconciliation

  /** `field` added up over `cards`. */
  function Sum(cards: seq<Card>, field: Card -> nat): nat {
    if |cards| == 0 then 0
    else Sum(cards[..|cards| - 1], field) + field(cards[|cards| - 1])
  }

  function Balance(c: Card): nat { c.balance }
  function AmountSpent(c: Card): nat { c.amountSpent }
  function Limit(c: Card): nat { c.spendingLimit }

  /** How many of `cards` are active. */
  function ActiveCount(cards: seq<Card>): nat {
    if |cards| == 0 then 0
    else ActiveCount(cards[..|cards| - 1]) + (if cards[|cards| - 1].isActive then 1 else 0)
  }

  /** Active cards are some of the cards. */
  lemma {:induction false} ActiveAtMostAll(cards: seq<Card>)
    ensures ActiveCount(cards) <= |cards|
    ensures ActiveCount(cards) == |cards| <==> forall k :: 0 <= k < |cards| ==> cards[k].isActive
  {
    if |cards| > 0 {
      var pre := cards[..|cards| - 1];
      ActiveAtMostAll(pre);
      assert forall k :: 0 <= k < |pre| ==> pre[k] == cards[k];
    }
  }

  /** Totals split over concatenation: each card contributes once. */
  lemma {:induction false} SumAppend(a: seq<Card>, b: seq<Card>, field: Card -> nat)
    ensures Sum(a + b, field) == Sum(a, field) + Sum(b, field)
  {
    if |b| > 0 {
      var b' := b[..|b| - 1];
      assert (a + b)[..|a + b| - 1] == a + b';
      SumAppend(a, b', field);
    } else {
      assert a + b == a;
    }
  }

  /** A worked example: balances 10, 0 and 5 total 15. */
  lemma TotalBalanceExample()
    ensures Sum([Card(0, 10, 0, 0, true), Card(2, 0, 0, 0, true), Card(5, 5, 0, 0, false)], Balance) == 15
  {
    var cs := [Card(0, 10, 0, 0, true), Card(2, 0, 0, 0, true), Card(5, 5, 0, 0, false)];
    assert cs[..1][..0] == [];
    assert Sum(cs[..1], Balance) == 10;
    assert cs[..2][..1] == cs[..1];
    assert Sum(cs[..2], Balance) == 10;
    assert cs[..2] == cs[..|cs| - 1];
  }

  /** The four kinds the dashboard queries. */
  const DashboardKinds: seq<Kind> := [CardCreated, CardDeposited, CardWithdrawn, CardSpent]

  /** `event.args.owner || event.args.from` */
  function OwnerOrFrom(args: Args): Option<Address> {
    if Truthy(args.owner) then args.owner else args.from
  }

  /** `owner && owner.toLowerCase() === walletAddress.toLowerCase()` */
  predicate ByWallet(e: Event, wallet: Address) {
    Truthy(OwnerOrFrom(e.args)) && SameAddress(OwnerOrFrom(e.args).value, wallet)
  }

  /** The dashboard's queried events, each stamped with its block's time. */
  function Fetched(log: seq<Event>, blockTime: nat -> nat): seq<Event> {
    ResolveTimestamps(FetchKinds(log, DashboardKinds), blockTime)
  }

  /** `userTransactions` after its sort: the wallet's events, newest first. */
  function UserTransactions(log: seq<Event>, blockTime: nat -> nat, wallet: Address): (r: seq<Event>)
    ensures NonIncreasing(r, (e: Event) => e.timestamp)
    ensures forall e :: e in r <==> e in Fetched(log, blockTime) && ByWallet(e, wallet)
    ensures |r| == |Filter(Fetched(log, blockTime), e => ByWallet(e, wallet))|
  {
    var kept := Filter(Fetched(log, blockTime), e => ByWallet(e, wallet));
    NewestFirstSameEvents(kept);
    NewestFirst(kept)
  }

  /** A name of one of the four kinds the dashboard queries. */
  predicate DashboardName(name: string) {
    KindOf(name).Some? && KindOf(name).value in DashboardKinds
  }

  lemma {:induction false} FetchedNames(log: seq<Event>, blockTime: nat -> nat)
    ensures forall i :: 0 <= i < |Fetched(log, blockTime)| ==> DashboardName(Fetched(log, blockTime)[i].name)
  {
    var fetched := FetchKinds(log, DashboardKinds);
    forall i | 0 <= i < |fetched| ensures DashboardName(fetched[i].name) {
      assert fetched[i] in fetched;
      var k :| k in DashboardKinds && IsKind(fetched[i], k);
      KindNameRoundTrip(k, fetched[i].name);
    }
  }

  /** Every event on the dashboard comes from one of its four queries, so no
      CardStatusChanged or SpendingLimitChanged event is ever counted. */
  lemma UserTransactionsKinds(log: seq<Event>, blockTime: nat -> nat, wallet: Address)
    ensures forall e :: e in UserTransactions(log, blockTime, wallet) ==> DashboardName(e.name)
  {
    FetchedNames(log, blockTime);
  }

  /** The figures shown in the four summary tiles; amounts in wei. */
  datatype Stats = Stats(
    totalCards: nat,
    totalBalance: nat,
    totalSpent: nat,
    activeCards: nat,
    totalTransactions: nat,
    spendingLimit: nat)

  /** Everything one successful `fetchData` pass publishes. */
  datatype View = View(stats: Stats, cards: seq<Card>, transactions: seq<Event>, activity: seq<Activity>)

  /** `fetchData`. None when no wallet is connected: the function returns at
      once and the page keeps what it showed. */
  method FetchData(ledger: CardLedger, log: seq<Event>, blockTime: nat -> nat, wallet: Address)
    returns (view: Option<View>)
    ensures wallet == "" <==> view.None?
    ensures view.Some? ==> view.value.cards == Enumerate(ledger, wallet)
    ensures view.Some? ==> view.value.transactions == UserTransactions(log, blockTime, wallet)
    ensures view.Some? ==>
      view.value.activity == Reconcile(Ranking(view.value.transactions), view.value.cards)
    ensures view.Some? ==> view.value.stats == Stats(
      |view.value.cards|,
      Sum(view.value.cards, Balance),
      Sum(view.value.cards, AmountSpent),
      ActiveCount(view.value.cards),
      |view.value.transactions|,
      Sum(view.value.cards, Limit))
    ensures view.Some? ==> view.value.stats.activeCards <= view.value.stats.totalCards
  {
    if wallet == "" {
      return None;
    }
    var cards, totalBalance, totalSpent, totalLimit, activeCards := FetchCards(ledger, wallet);
    var transactions := UserTransactions(log, blockTime, wallet);
    var ranked := ProcessCardActivity(transactions);
    var activity := Reconcile(ranked, cards);
    ActiveAtMostAll(cards);
    var stats := Stats(|cards|, totalBalance, totalSpent, activeCards, |transactions|, totalLimit);
    return Some(View(stats, cards, transactions, activity));
  }

  /** The card loop of `fetchData`: probe ids upward, keep the wallet's cards
      and add up their figures as they are found. */
  method FetchCards(ledger: CardLedger, wallet: Address)
    returns (cards: seq<Card>, totalBalance: nat, totalSpent: nat, totalLimit: nat, activeCards: nat)
    ensures cards == Enumerate(ledger, wallet)
    ensures totalBalance == Sum(cards, Balance)
    ensures totalSpent == Sum(cards, AmountSpent)
    ensures totalLimit == Sum(cards, Limit)
    ensures activeCards == ActiveCount(cards)
  {
    cards := [];
    totalBalance, totalSpent, totalLimit, activeCards := 0, 0, 0, 0;
    var i: nat := 0;
    while i <= ProbeCeiling
      invariant i <= ProbeCeiling + 1
      invariant forall j :: 0 <= j < i ==> ledger(j).Some?
      invariant cards == OwnedBelow(ledger, wallet, i)
      invariant totalBalance == Sum(cards, Balance)
      invariant totalSpent == Sum(cards, AmountSpent)
      invariant totalLimit == Sum(cards, Limit)
      invariant activeCards == ActiveCount(cards)
      decreases ProbeCeiling + 1 - i
    {
      if ledger(i).None? {
        break;
      }
      var info := ledger(i).value;
      OwnedBelowStep(ledger, wallet, i, info);
      if Owns(info, wallet) {
        var c := CardAt(i, info);
        FiguresSnoc(cards, c);
        cards := cards + [c];
        totalBalance := totalBalance + info.balance;
        totalSpent := totalSpent + info.spent;
        totalLimit := totalLimit + info.limit;
        if info.active {
          activeCards := activeCards + 1;
        }
      }
      i := i + 1;
    }
    ProbedIsFirstStop(ledger, i);
  }

  /** One more card adds its own figures to every total. */
  lemma FiguresSnoc(cards: seq<Card>, c: Card)
    ensures Sum(cards + [c], Balance) == Sum(cards, Balance) + c.balance
    ensures Sum(cards + [c], AmountSpent) == Sum(cards, AmountSpent) + c.amountSpent
    ensures Sum(cards + [c], Limit) == Sum(cards, Limit) + c.spendingLimit
    ensures ActiveCount(cards + [c]) == ActiveCount(cards) + (if c.isActive then 1 else 0)
  {
    assert (cards + [c])[..|cards|] == cards;
  }

  /** With no card at id 0 and no event by the wallet, the page shows an
      empty portfolio: no cards, no transactions, no activity, and every
      summary figure zero. */
  lemma EmptyPortfolio(ledger: CardLedger, log: seq<Event>, blockTime: nat -> nat, wallet: Address)
    requires ledger(0).None?
    requires forall e :: e in log ==> !ByWallet(e, wallet)
    ensures Enumerate(ledger, wallet) == []
    ensures UserTransactions(log, blockTime, wallet) == []
    ensures Reconcile(Ranking(UserTransactions(log, blockTime, wallet)), Enumerate(ledger, wallet)) == []
    ensures var cards := Enumerate(ledger, wallet);
      Stats(|cards|, Sum(cards, Balance), Sum(cards, AmountSpent), ActiveCount(cards),
            |UserTransactions(log, blockTime, wallet)|, Sum(cards, Limit))
      == Stats(0, 0, 0, 0, 0, 0)
  {
    var fetched := FetchKinds(log, DashboardKinds);
    var stamped := Fetched(log, blockTime);
    forall i | 0 <= i < |stamped| ensures !ByWallet(stamped[i], wallet) {
      assert fetched[i] in fetched;
      assert stamped[i].args == fetched[i].args;
    }
    assert Unranked([]) == [];
  }
}
