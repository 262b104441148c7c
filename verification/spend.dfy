/** The spend page: the cards offered for spending, the wallet's recent
    spends, the QR scan handler, the pre-submit checks of `handleSpend`, and
    the "available to spend" figure. `isAddress` stands for
    `ethers.utils.isAddress`. */
module Spend {
  import opened Wrappers
  import opened Addresses
  import opened Sequences
  import opened Ledger
  import opened CardEnumeration
  import opened Forms

  /** `fetchCards` on this page: the enumerated cards that are active and
      hold a positive balance. None when no wallet is connected. */
  function FetchCards(ledger: CardLedger, wallet: Address): (r: Option<seq<Card>>)
    ensures wallet == "" <==> r.None?
    ensures r.Some? ==> StrictlyAscending(r.value, (c: Card) => c.id)
    ensures r.Some? ==> forall k :: 0 <= k < |r.value| ==>
      r.value[k] in Enumerate(ledger, wallet) && r.value[k].isActive && r.value[k].balance > 0
    ensures r.Some? ==> forall k :: 0 <= k < |Enumerate(ledger, wallet)| ==>
      var c := Enumerate(ledger, wallet)[k];
      c.isActive && c.balance > 0 ==> c in r.value
  {
    if wallet == "" then None
    else
      var all := Enumerate(ledger, wallet);
      FilterKeepsAscending(all, (c: Card) => c.isActive && c.balance > 0, (c: Card) => c.id);
      Some(Filter(all, (c: Card) => c.isActive && c.balance > 0))
  }

  /** `owner && owner.toLowerCase() === walletAddress.toLowerCase()` with
      `owner = event.args.from`. */
  predicate SpentFrom(e: Event, wallet: Address) {
    Truthy(e.args.from) && SameAddress(e.args.from.value, wallet)
  }

  /** `fetchRecentSpends`: the wallet's CardSpent events, newest first. */
  function RecentSpends(log: seq<Event>, blockTime: nat -> nat, wallet: Address): (r: seq<Event>)
    ensures NonIncreasing(r, (e: Event) => e.timestamp)
    ensures forall e :: e in r <==>
      e in ResolveTimestamps(QueryFilter(log, CardSpent), blockTime) && SpentFrom(e, wallet)
    ensures forall e :: SpentFrom(e, wallet) ==>
      multiset(r)[e] == multiset(ResolveTimestamps(QueryFilter(log, CardSpent), blockTime))[e]
    ensures multiset(r) <= multiset(ResolveTimestamps(QueryFilter(log, CardSpent), blockTime))
  {
    var kept := Filter(ResolveTimestamps(QueryFilter(log, CardSpent), blockTime), e => SpentFrom(e, wallet));
    FilterCounts(ResolveTimestamps(QueryFilter(log, CardSpent), blockTime), e => SpentFrom(e, wallet));
    NewestFirstSameEvents(kept);
    NewestFirst(kept)
  }

  /** Recent spends are all CardSpent events. */
  lemma RecentSpendsAreSpends(log: seq<Event>, blockTime: nat -> nat, wallet: Address)
    ensures forall e :: e in RecentSpends(log, blockTime, wallet) ==> IsKind(e, CardSpent)
  {
    var spends := QueryFilter(log, CardSpent);
    var stamped := ResolveTimestamps(spends, blockTime);
    forall e | e in RecentSpends(log, blockTime, wallet) ensures IsKind(e, CardSpent) {
      var i :| 0 <= i < |stamped| && stamped[i] == e;
      assert IsKind(spends[i], CardSpent);
    }
  }

  /** The spend form's state. */
  datatype SpendForm = SpendForm(selected: Option<Card>, amount: AmountInput, recipient: string)

  /** The toasts `handleSpend` can end with, other than success. */
  datatype SpendError = NoCardSelected | InvalidRecipient | InvalidAmount | InsufficientBalance | TransactionFailed

  /** `contract.spend(cardId, amount, recipient)`. */
  datatype SpendRequest = SpendRequest(cardId: nat, amount: nat, recipient: string)

  /** The checks of `handleSpend`, in the order it makes them. */
  function ValidateSpend(form: SpendForm, isAddress: string -> bool): Result<SpendRequest, SpendError> {
    if form.selected.None? then Failure(NoCardSelected)
    else if !isAddress(form.recipient) then Failure(InvalidRecipient)
    else if !PositiveAmount(form.amount) then Failure(InvalidAmount)
    else if form.amount.value > form.selected.value.balance then Failure(InsufficientBalance)
    else Success(SpendRequest(form.selected.value.id, form.amount.value, form.recipient))
  }

  /** The outcome of one submit: the form afterwards, the request sent to
      the contract if any, and the error shown if any. */
  datatype SpendStep = SpendStep(form: SpendForm, request: Option<SpendRequest>, error: Option<SpendError>)

  /** `handleSpend`; `confirmed` is whether the transaction went through. */
  function HandleSpend(form: SpendForm, isAddress: string -> bool, confirmed: bool): (r: SpendStep)
    ensures r.request.Some? <==>
      form.selected.Some? && isAddress(form.recipient) && form.amount.Wei?
      && 0 < form.amount.value <= form.selected.value.balance
    ensures r.request.Some? ==>
      r.request.value == SpendRequest(form.selected.value.id, form.amount.value, form.recipient)
    ensures r.request.Some? && confirmed ==>
      r.form == form.(amount := Blank, recipient := "") && r.error.None?
    ensures r.request.Some? && !confirmed ==> r.form == form && r.error == Some(TransactionFailed)
    ensures r.request.None? ==> r.form == form && r.error.Some?
  {
    match ValidateSpend(form, isAddress)
    case Failure(err) => SpendStep(form, None, Some(err))
    case Success(req) =>
      if confirmed then SpendStep(form.(amount := Blank, recipient := ""), Some(req), None)
      else SpendStep(form, Some(req), Some(TransactionFailed))
  }

  /** Each rejection names the first check that fails: no card before a bad
      recipient, a bad recipient before a bad amount, and a bad amount before
      an amount over the balance. */
  lemma SpendRejectionOrder(form: SpendForm, isAddress: string -> bool, confirmed: bool)
    ensures var r := HandleSpend(form, isAddress, confirmed);
      && (r.error == Some(NoCardSelected) <==> form.selected.None?)
      && (r.error == Some(InvalidRecipient) <==> form.selected.Some? && !isAddress(form.recipient))
      && (r.error == Some(InvalidAmount) <==>
            form.selected.Some? && isAddress(form.recipient) && !PositiveAmount(form.amount))
      && (r.error == Some(InsufficientBalance) <==>
            form.selected.Some? && isAddress(form.recipient) && PositiveAmount(form.amount)
            && form.amount.value > form.selected.value.balance)
  {
  }

  /** A successful spend clears the form, so submitting again at once is
      rejected for the missing recipient before anything is sent. */
  lemma NoDoubleSpend(form: SpendForm, isAddress: string -> bool)
    requires HandleSpend(form, isAddress, true).request.Some?
    requires !isAddress("")
    ensures HandleSpend(HandleSpend(form, isAddress, true).form, isAddress, true).request.None?
  {
  }

  /** The page checks the balance only: a spend over what is left of the
      card's limit, or on a card the ledger reports inactive, is still sent
      and left to the contract to refuse. */
  lemma LimitLeftToContract(c: Card, n: int, recipient: string, isAddress: string -> bool, confirmed: bool)
    requires isAddress(recipient)
    requires 0 < n <= c.balance
    ensures HandleSpend(SpendForm(Some(c), Wei(n), recipient), isAddress, confirmed).request
         == Some(SpendRequest(c.id, n, recipient))
    ensures n > AvailableToSpend(c) || !c.isActive ==>
      HandleSpend(SpendForm(Some(c), Wei(n), recipient), isAddress, confirmed).request.Some?
  {
  }

  /** `handleQRScan`: a scanned valid address becomes the recipient; anything
      else leaves the form as it was. */
  function HandleQRScan(form: SpendForm, data: string, isAddress: string -> bool): (r: SpendForm)
    ensures r.selected == form.selected && r.amount == form.amount
    ensures isAddress(data) ==> r.recipient == data
    ensures !isAddress(data) ==> r == form
  {
    if isAddress(data) then form.(recipient := data) else form
  }

  /** After a successful scan the recipient check of `handleSpend` passes. */
  lemma ScannedRecipientPasses(form: SpendForm, data: string, isAddress: string -> bool, confirmed: bool)
    requires isAddress(data)
    requires form.selected.Some?
    ensures HandleSpend(HandleQRScan(form, data, isAddress), isAddress, confirmed).error != Some(InvalidRecipient)
  {
  }

  /** The "Available to Spend" figure: the limit less what has been spent. */
  function AvailableToSpend(c: Card): int {
    c.spendingLimit - c.amountSpent
  }
}
