/** The card management page: its card list, the deposit/withdraw modal and
    its submit handler, the per-card actions (toggle, reset, change limit) and
    which of their buttons are enabled. Contract calls appear as the
    `Request` they would send; whether the transaction confirms is a
    parameter. */
module ManageCards {
  import opened Wrappers
  import opened Addresses
  import opened Sequences
  import opened Ledger
  import opened CardEnumeration
  import opened Forms
  import opened Ether

  /** `fetchCards`: the same probe loop as the dashboard. None when no
      wallet is connected (the early return). */
  function FetchCards(ledger: CardLedger, wallet: Address): (r: Option<seq<Card>>)
    ensures wallet == "" <==> r.None?
    ensures r.Some? ==> r.value == Enumerate(ledger, wallet)
    ensures r.Some? ==> StrictlyAscending(r.value, (c: Card) => c.id)
    ensures r.Some? ==> forall k :: 0 <= k < |r.value| ==>
      r.value[k].id < Probed(ledger) && ledger(r.value[k].id).Some? && Owns(ledger(r.value[k].id).value, wallet)
      && r.value[k] == CardAt(r.value[k].id, ledger(r.value[k].id).value)
    ensures r.Some? ==> forall j :: 0 <= j < Probed(ledger) && Owns(ledger(j).value, wallet) ==> HasId(r.value, j)
  {
    if wallet == "" then None else Some(Enumerate(ledger, wallet))
  }

  datatype ModalKind = DepositModal | WithdrawModal

  /** `modalState`; `maxAmount` is the withdraw modal's balance. */
  datatype ModalState = ModalState(isOpen: bool, kind: Option<ModalKind>, cardId: Option<nat>, maxAmount: Option<nat>)

  /** The modal together with its amount field. */
  datatype Page = Page(modal: ModalState, amount: AmountInput)

  /** The state the page starts in, and the one `closeModal` restores. */
  const Initial: Page := Page(ModalState(false, None, None, None), Blank)

  /** What the page asks of the contract. */
  datatype Request =
    | Deposit(modalCard: Option<nat>, amount: nat)
    | Withdraw(modalCard: Option<nat>, amount: nat)
    | SetActive(cardId: nat, active: bool)
    | ResetSpent(cardId: nat)
    | ChangeLimit(cardId: nat, limit: nat)

  datatype ManageError = InvalidAmount | InsufficientBalance | TransactionFailed

  /** The outcome of one handler call: the page afterwards, the request sent
      if any, and the error shown if any. */
  datatype Step = Step(page: Page, request: Option<Request>, error: Option<ManageError>)

  /** `openDepositModal`: an empty amount and no upper bound. */
  function OpenDepositModal(cardId: nat): Page {
    Page(ModalState(true, Some(DepositModal), Some(cardId), None), Blank)
  }

  /** `openWithdrawModal`: the amount is prefilled with, and bounded by, the
      card's balance. */
  function OpenWithdrawModal(cardId: nat, balance: nat): Page {
    Page(ModalState(true, Some(WithdrawModal), Some(cardId), Some(balance)), Wei(balance))
  }

  function CloseModal(): Page {
    Initial
  }

  /** The withdraw-only check `numAmount > parseFloat(maxAmount)`; a missing
      bound parses as NaN, which nothing exceeds. */
  predicate OverMax(m: ModalState, amount: int) {
    m.kind == Some(WithdrawModal) && m.maxAmount.Some? && amount > m.maxAmount.value
  }

  /** `handleModalSubmit`. Anything but the deposit modal dispatches a
      withdrawal, as the source's `else` branch does. */
  function HandleModalSubmit(p: Page, confirmed: bool): (r: Step)
    ensures r.request.Some? <==> PositiveAmount(p.amount) && !OverMax(p.modal, p.amount.value)
    ensures r.request.Some? && p.modal.kind == Some(DepositModal) ==>
      r.request.value == Deposit(p.modal.cardId, p.amount.value)
    ensures r.request.Some? && p.modal.kind != Some(DepositModal) ==>
      r.request.value == Withdraw(p.modal.cardId, p.amount.value)
    ensures r.page == CloseModal() || r.page == p
    ensures r.page != p ==> r.request.Some? && confirmed
    ensures r.error.None? <==> r.request.Some? && confirmed
    ensures !PositiveAmount(p.amount) ==> r.error == Some(InvalidAmount)
  {
    if !PositiveAmount(p.amount) then Step(p, None, Some(InvalidAmount))
    else if OverMax(p.modal, p.amount.value) then Step(p, None, Some(InsufficientBalance))
    else
      var req := if p.modal.kind == Some(DepositModal) then Deposit(p.modal.cardId, p.amount.value)
                 else Withdraw(p.modal.cardId, p.amount.value);
      if confirmed then Step(CloseModal(), Some(req), None)
      else Step(p, Some(req), Some(TransactionFailed))
  }

  /** A deposit has no upper bound: any positive amount typed into the
      deposit modal is sent for that card. */
  lemma DepositUnbounded(cardId: nat, n: int, confirmed: bool)
    ensures var r := HandleModalSubmit(OpenDepositModal(cardId).(amount := Wei(n)), confirmed);
      r.request.Some? <==> n > 0
    ensures n > 0 ==>
      HandleModalSubmit(OpenDepositModal(cardId).(amount := Wei(n)), confirmed).request == Some(Deposit(Some(cardId), n))
  {
  }

  /** A withdrawal is sent exactly when the amount lies in (0, balance]. */
  lemma WithdrawBounded(cardId: nat, balance: nat, n: int, confirmed: bool)
    ensures var r := HandleModalSubmit(OpenWithdrawModal(cardId, balance).(amount := Wei(n)), confirmed);
      && (r.request.Some? <==> 0 < n <= balance)
      && (r.request.Some? ==> r.request.value == Withdraw(Some(cardId), n))
      && (n > balance ==> r.error == Some(InsufficientBalance))
  {
  }

  /** Submitting the withdraw modal as it opened asks to withdraw the
      prefilled balance as parsed, unless the balance is zero. */
  lemma PrefilledWithdrawal(cardId: nat, balance: nat, confirmed: bool)
    ensures var r := HandleModalSubmit(OpenWithdrawModal(cardId, balance), confirmed);
      && (r.request.Some? <==> balance > 0)
      && (balance > 0 ==> r.request.value == Withdraw(Some(cardId), balance))
  {
  }

  /** Opening either modal and closing it again returns the page to its
      initial state; a confirmed submission does the same. */
  lemma ModalReturnsToInitial(cardId: nat, balance: nat, n: nat)
    requires n > 0
    ensures HandleModalSubmit(OpenDepositModal(cardId).(amount := Wei(n)), true).page == Initial
    ensures n <= balance ==>
      HandleModalSubmit(OpenWithdrawModal(cardId, balance).(amount := Wei(n)), true).page == Initial
    ensures HandleModalSubmit(OpenDepositModal(cardId).(amount := Wei(n)), false).page.modal.isOpen
  {
  }

  /** `toggleActive(card.id, card.isActive)` asks for the opposite status. */
  function ToggleActive(c: Card): (r: Request)
    ensures r.SetActive? && r.cardId == c.id
    ensures r.active != c.isActive
  {
    SetActive(c.id, !c.isActive)
  }

  /** The toggle button's caption. */
  function ToggleLabel(c: Card): string {
    if c.isActive then "Deactivate" else "Activate"
  }

  /** `resetSpent(card.id)`. */
  function ResetSpentRequest(c: Card): (r: Request)
    ensures r.ResetSpent? && r.cardId == c.id
  {
    ResetSpent(c.id)
  }

  /** What `prompt` returns: null when cancelled, otherwise the typed text. */
  datatype PromptAnswer = Cancelled | Answer(text: AmountInput)

  /** The part of `changeLimit` after the prompt: a cancelled or empty answer
      does nothing; text `parseEther` rejects, or a negative limit the
      `uint256` argument encoder rejects, ends in an error before anything
      is sent. */
  function LimitAnswer(cardId: nat, answer: PromptAnswer): (r: Step)
    ensures r.page == Initial
    ensures r.request.Some? <==> answer.Answer? && answer.text.Wei? && answer.text.value >= 0
    ensures r.request.Some? ==> r.request.value == ChangeLimit(cardId, answer.text.value)
    ensures answer == Cancelled || answer == Answer(Blank) ==> r.request.None? && r.error.None?
  {
    match answer
    case Cancelled => Step(Initial, None, None)
    case Answer(Blank) => Step(Initial, None, None)
    case Answer(Invalid) => Step(Initial, None, Some(TransactionFailed))
    case Answer(Wei(n)) =>
      if n < 0 then Step(Initial, None, Some(TransactionFailed))
      else Step(Initial, Some(ChangeLimit(cardId, n)), None)
  }

  /** `changeLimit(card.id, card.spendingLimit)` as written: the displayed
      limit, already `formatEther` text, is passed through `formatEther`
      again to build the prompt's default, and that call throws unless its
      argument is a `BigNumber` string. */
  function ChangeLimitAsWritten(c: Card, answer: PromptAnswer): Step {
    if !BigNumberString(FormatEther(c.spendingLimit)) then Step(Initial, None, Some(TransactionFailed))
    else LimitAnswer(c.id, answer)
  }

  /** As written, "Change Limit" never reaches the prompt: every card's
      displayed limit carries a decimal point, so every click ends in an
      error and no request. */
  lemma ChangeLimitAlwaysFails(c: Card, answer: PromptAnswer)
    ensures ChangeLimitAsWritten(c, answer) == Step(Initial, None, Some(TransactionFailed))
  {
    FormattedIsNotBigNumber(c.spendingLimit);
  }

  /** `changeLimit` with the prompt's default built from the limit in wei. */
  function ChangeLimitRequest(c: Card, answer: PromptAnswer): (r: Step)
    ensures r.request.Some? ==> r.request.value.ChangeLimit? && r.request.value.cardId == c.id
  {
    LimitAnswer(c.id, answer)
  }

  /** With the default fixed, any non-negative limit typed in is sent for the
      clicked card, and cancelling sends nothing and shows nothing. */
  lemma ChangeLimitRequestSends(c: Card, n: int)
    ensures n >= 0 ==> ChangeLimitRequest(c, Answer(Wei(n))).request == Some(ChangeLimit(c.id, n))
    ensures n < 0 ==> ChangeLimitRequest(c, Answer(Wei(n))).error.Some?
    ensures ChangeLimitRequest(c, Cancelled) == Step(Initial, None, None)
  {
  }

  /** Which of a card's buttons are enabled. */
  datatype Buttons = Buttons(toggle: bool, reset: bool, deposit: bool, withdraw: bool, changeLimit: bool)

  /** The `disabled` expressions of the five buttons, negated; a withdraw
      needs `parseFloat(card.balance) !== 0`, i.e. a non-zero balance. */
  function EnabledButtons(loading: bool, c: Card): Buttons {
    Buttons(
      !loading,
      !(loading || !c.isActive),
      !(loading || !c.isActive),
      !(loading || !c.isActive || c.balance == 0),
      !(loading || !c.isActive))
  }

  /** While loading nothing is enabled; an inactive card can only be
      toggled; an enabled withdraw button means there is something to
      withdraw, and then the modal's first submit sends a withdrawal. */
  lemma ButtonRules(loading: bool, c: Card, confirmed: bool)
    ensures var b := EnabledButtons(loading, c);
      && (b.toggle <==> !loading)
      && (b.reset <==> !loading && c.isActive)
      && b.deposit == b.reset && b.changeLimit == b.reset
      && (b.withdraw <==> b.deposit && c.balance > 0)
      && (b.reset || b.deposit || b.withdraw || b.changeLimit ==> b.toggle)
      && (b.withdraw ==> HandleModalSubmit(OpenWithdrawModal(c.id, c.balance), confirmed).request.Some?)
  {
    PrefilledWithdrawal(c.id, c.balance, confirmed);
  }

  /** What the card's action buttons ask for: the toggle asks for the status
      its caption names, so an inactive card, whose other buttons are all
      disabled, can only be asked to activate; reset asks for the card's own
      spent amount to be cleared. */
  lemma CardActions(loading: bool, c: Card)
    ensures var b := EnabledButtons(loading, c);
      && (ToggleActive(c).active <==> ToggleLabel(c) == "Activate")
      && (!c.isActive && b.toggle ==>
            ToggleActive(c) == SetActive(c.id, true) && !b.reset && !b.deposit && !b.withdraw && !b.changeLimit)
      && (c.isActive && b.toggle ==> ToggleActive(c) == SetActive(c.id, false))
      && (b.reset ==> ResetSpentRequest(c) == ResetSpent(c.id))
  {
  }
}
