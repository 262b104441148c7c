# SmartCards: a Dafny model of the dApp's client-side logic

SmartCards is a React front end for a prepaid-card contract. Each card has an
owner, a balance, a spending limit, an amount spent and an active flag. The pages
do not keep any state of their own. Every view is rebuilt from two sources:
`getCardInfo(id)` probes and the contract's event log. This project models
that client-side logic in Dafny, with these modules:

- `CardEnumeration`: the probe loop shared by the dashboard, spend and manage
  pages. It probes ids 0, 1, 2, ... and stops at the first probe that fails or
  after id 1000. It keeps the cards whose owner equals the wallet, ignoring case.
- `Dashboard`, `Activity`, `Reconciliation`, `DailyVolume`: `fetchData`.
  - Portfolio totals.
  - The wallet's events (owner or `from`), newest first.
  - `processCardActivity`: count events per card, sum CardSpent amounts, and
    rank cards by count with a stable sort.
  - Reconciliation of each card's event-derived spent figure with the live
    one.
  - The daily volume chart.
- `History`: all six event kinds stamped with block time, newest first. It
  keeps the user's CardCreated events and the events on the cards they
  created. `formatEventData` maps each kind to its title.
- `Spend`: the spendable cards (active, positive balance), recent spends, QR
  scanning, the ordered checks of `handleSpend`, and "available to spend".
- `ManageCards`: the deposit/withdraw modal state machine, its submit
  validation and dispatch, toggling, changing the limit, and the
  button-enable rules.
- `Header`: address truncation, the network check, the right-hand control, and
  when the navigation is visible.
- Support modules:
  - `Ledger`: cards, events, the event-kind names, queries, block timestamps,
    and the newest-first sort.
  - `Sequences`: filtering, subsequences, and a stable descending insertion
    sort.
  - `Addresses`: ASCII lower-casing.
  - `Forms`: amount fields as `parseFloat` reads them.
  - `Ether`: `formatEther` and the string grammar of `BigNumber.from`.

Modelling choices:

- Amounts are integers in wei.
- The contract is a function from card id to an optional record. `None`
  stands for any thrown error.
- The event log is a sequence of named events with optional arguments.
- Block times, `ethers.utils.isAddress` and the local calendar day of a
  timestamp are parameters.
- Mutating contract calls appear as the request the page would send.
  Whether the transaction confirms is a boolean parameter.

The model follows the code as written, including where it is easy to misread:

- A probe that fails for any reason ends enumeration; a network failure is
  treated like a missing card. The check is `i > 1000` after the increment, so
  ids 0 to 1000 are probed: 1001 probes, not 1000.
- Before a spend, `handleSpend` checks the amount against the balance only, not
  against the remaining limit (`Spend.LimitLeftToContract`).

## Model

| member | source | states |
|---|---|---|
| `Addresses.ToLower` | src/pages/Dashboard.jsx:98 | lower-casing keeps the length and maps each character on its own |
| `Addresses.ToLowerIdempotent` | src/pages/Dashboard.jsx:98 | lower-casing twice is lower-casing once |
| `Addresses.SameAddressIsEquivalence` | src/pages/Dashboard.jsx:98 | the case-insensitive owner comparison is reflexive, symmetric and transitive |
| `Addresses.SameAddressIgnoresCase` | src/pages/Dashboard.jsx:98 | an address matches its lower-cased spelling |
| `Ledger.KindNameRoundTrip` | src/pages/History.jsx:91-135 | each event kind has exactly one name, and the name gives the kind back |
| `Ledger.QueryFilter` | src/pages/Dashboard.jsx:126-131 | a kind's query returns log events of that kind and misses none of them |
| `Ledger.FetchKinds` | src/pages/Dashboard.jsx:126-133 | the flattened queries hold exactly the log events whose kind is queried |
| `Ledger.SameBlockSameTimestamp` | src/pages/History.jsx:46-51 | events of one block get equal timestamps, whole seconds in milliseconds |
| `Ledger.NewestFirst` | src/pages/Dashboard.jsx:149 | the sort yields non-increasing timestamps and a permutation of its input |
| `Ledger.NewestFirstSameEvents` | src/pages/History.jsx:54 | sorting neither adds nor drops events |
| `Sequences.Filter` | src/pages/Spend.jsx:61 | the filter keeps exactly the elements satisfying the predicate, no more than the input |
| `Sequences.FilterCounts` | src/pages/Spend.jsx:61 | the filter keeps each satisfying element exactly as often as it occurs and never adds a copy |
| `Sequences.FilterIsSubsequence` | src/pages/History.jsx:66-75 | filtering only deletes; the survivors keep their relative order |
| `Sequences.SubsequenceKeepsOrder` | src/pages/History.jsx:54-75 | deleting events from a newest-first list leaves it newest first |
| `Sequences.FilterIdempotent` | src/pages/History.jsx:66-75 | filtering twice by one predicate is filtering once |
| `Sequences.FilterKeepsAscending` | src/pages/Spend.jsx:61 | filtering an ascending-id list keeps it ascending |
| `Sequences.Insert` | src/pages/Dashboard.jsx:76 | inserting into a descending list keeps it descending and is a permutation of the list plus the element |
| `Sequences.SortDesc` | src/pages/Dashboard.jsx:76 | the descending sort yields a non-increasing permutation of its input |
| `Sequences.SortDescSameElements` | src/pages/Dashboard.jsx:76 | the sort keeps the same elements and length |
| `Sequences.StableSortRanks` | src/pages/Dashboard.jsx:69-76 | the sort is stable: on input ascending by id, ties on the key stay in ascending id order |
| `CardEnumeration.ProbeRun` | src/pages/Dashboard.jsx:95-117 | the probes from an id onward succeed up to the first failure or the ceiling, and the next probe fails |
| `CardEnumeration.Probed` | src/pages/Dashboard.jsx:95-117 | at most 1001 ids are probed, all succeed, and the loop stopped at a failing probe or after id 1000 |
| `CardEnumeration.ProbedIsFirstStop` | src/pages/Dashboard.jsx:112-116 | any point where the loop's exit condition first holds is that stopping point |
| `CardEnumeration.OwnedBelowContents` | src/pages/Dashboard.jsx:95-111 | the loop's card list, ascending by id, holds exactly the owned cards among the ids probed so far |
| `CardEnumeration.Enumerate` | src/pages/Dashboard.jsx:88-117 | the enumerated cards are ascending by id and are exactly the wallet's cards among the successfully probed ids |
| `CardEnumeration.NothingPastTheGap` | src/pages/Dashboard.jsx:114-116 | no card past the first failing probe is reported, even one the wallet owns |
| `CardEnumeration.EnumerateIgnoresCase` | src/pages/Dashboard.jsx:98 | wallets spelled with different letter case find the same cards |
| `Activity.KeysBelow` | src/pages/Dashboard.jsx:69 | the card ids are listed ascending, each once, as `Object.entries` lists array-index keys (ids below 2^32 - 1) |
| `Activity.UnrankedLists` | src/pages/Dashboard.jsx:51-75 | before ranking, a card has an entry exactly when some event carries its id |
| `Activity.RankingLists` | src/pages/Dashboard.jsx:47-77 | the ranking lists a card exactly when some event carries its id |
| `Activity.RankingFigures` | src/pages/Dashboard.jsx:51-75 | each ranked entry's count and spent figures are its card's event count and sum of CardSpent amounts (a missing amount counts as zero) |
| `Activity.RankingOrder` | src/pages/Dashboard.jsx:69-76 | most active first; equal counts in ascending id order |
| `Activity.RankingCountsAddUp` | src/pages/Dashboard.jsx:51-56 | the ranked counts add up to the number of events with a card id: none counted twice, none lost |
| `Activity.CountsAddUp` | src/pages/Dashboard.jsx:51-56 | over distinct ids covering every mentioned card, the per-card counts add up to the events with an id |
| `Activity.Tally` | src/pages/Dashboard.jsx:51-66 | the counting loop fills the count map for exactly the mentioned ids, with each card's event count and spent total |
| `Activity.ProcessCardActivity` | src/pages/Dashboard.jsx:47-77 | the loop-and-sort implementation equals the reference ranking |
| `Reconciliation.FindCard` | src/pages/Dashboard.jsx:156 | the lookup finds a card with the id exactly when one is listed |
| `Reconciliation.FindCardUnique` | src/pages/Dashboard.jsx:156 | on an ascending-id list the lookup finds the card itself |
| `Reconciliation.Reconcile` | src/pages/Dashboard.jsx:155-165 | entries keep id, count and position; a matched entry's spent becomes the card's live amountSpent; an unmatched entry is unchanged |
| `Reconciliation.ReconcileKeepsRanking` | src/pages/Dashboard.jsx:155-165 | reconciliation does not disturb the ranking order |
| `Reconciliation.ReconcileIdempotent` | src/pages/Dashboard.jsx:155-165 | reconciling twice against the same cards is reconciling once |
| `Reconciliation.ReconcileAgainstEnumeration` | src/pages/Dashboard.jsx:155-165 | against enumerated cards, an entry's spent is the matching card's amountSpent |
| `Dashboard.ActiveAtMostAll` | src/pages/Dashboard.jsx:110 | the active count never exceeds the card count, and equals it exactly when every card is active |
| `Dashboard.SumAppend` | src/pages/Dashboard.jsx:107-109 | each card contributes to a total exactly once |
| `Dashboard.TotalBalanceExample` | src/pages/Dashboard.jsx:107 | balances 10, 0 and 5 total 15 |
| `Dashboard.UserTransactions` | src/pages/Dashboard.jsx:136-149 | the dashboard's events are exactly the queried events whose owner (or else sender) is the wallet, newest first |
| `Dashboard.FetchedNames` | src/pages/Dashboard.jsx:126-133 | every queried event is of one of the four dashboard kinds |
| `Dashboard.UserTransactionsKinds` | src/pages/Dashboard.jsx:126-146 | status and limit changes never reach the dashboard's counts |
| `Dashboard.FetchCards` | src/pages/Dashboard.jsx:88-117 | the accumulating loop returns the enumerated cards and their balance, spent, limit and active totals |
| `Dashboard.FetchData` | src/pages/Dashboard.jsx:79-177 | no wallet means nothing is published; otherwise the stats are the card count, totals, active count and event count of the published cards and events, and activity is the reconciled ranking |
| `Dashboard.EmptyPortfolio` | src/pages/Dashboard.jsx:88-177 | with no card at id 0 and no event by the wallet: no cards, no transactions, no activity, and all six summary figures zero |
| `DailyVolume.DayKeys` | src/pages/Dashboard.jsx:191-196 | the volume object's keys are exactly the days with events, each once, starting with the first event's day |
| `DailyVolume.DayKeysFirstOccurrence` | src/pages/Dashboard.jsx:191-196 | the keys are ordered by the position of the first event on each day |
| `DailyVolume.Shown` | src/pages/Dashboard.jsx:198 | as written the chart takes the last seven keys |
| `DailyVolume.ChartDataContents` | src/pages/Dashboard.jsx:189-199 | at most seven points, distinct days with events, each with that day's summed volume |
| `DailyVolume.ChartDataCoversFewDays` | src/pages/Dashboard.jsx:198 | with seven days or fewer, every day with events is plotted |
| `DailyVolume.ChartDataExample` | src/pages/Dashboard.jsx:189-199 | days 9, 7, 7, 2 with amounts 1, 2, 3, 4 plot 9:1, 7:5, 2:4 |
| `DailyVolume.DayKeysDescend` | src/pages/Dashboard.jsx:191-196 | on newest-first events the keys run from the newest day to the oldest |
| `DailyVolume.DescendingDaysAllKeys` | src/pages/Dashboard.jsx:191-196 | events on strictly descending days each open a new key |
| `DailyVolume.NewestDayDropped` | src/pages/Dashboard.jsx:198 | as written, with more than seven days the newest day is missing from the chart |
| `DailyVolume.EightDaysDropsNewest` | src/pages/Dashboard.jsx:198 | as written, events on days 8 down to 1 plot no point for day 8 |
| `DailyVolume.Recent` | src/pages/Dashboard.jsx:198 | the corrected selection takes the seven newest keys, oldest first |
| `DailyVolume.RecentChartDataShowsNewest` | src/pages/Dashboard.jsx:198 | the corrected chart is in chronological order, ends with the newest day, and shows each day's volume |
| `DailyVolume.RecentChartDataDropsOnlyOlder` | src/pages/Dashboard.jsx:198 | the corrected chart leaves out only days older than every day it shows |
| `History.AllEvents` | src/pages/History.jsx:31-54 | exactly the logged events of the six kinds, each stamped with its block's time in milliseconds, as a permutation of the stamped query results, newest first |
| `History.FetchEvents` | src/pages/History.jsx:15-84 | no wallet means no fetch; the pass fails exactly when a creation event lacks its owner, or the wallet's creation lacks its card id; otherwise the shown list is the user-event filter of all events, newest first and in their order |
| `History.UserEventsMembership` | src/pages/History.jsx:56-75 | a CardCreated event is kept iff the wallet created it; any other event is kept iff its card id was created by the wallet |
| `History.OwnedIdsPreserved` | src/pages/History.jsx:56-75 | filtering keeps every creation by the wallet |
| `History.UserEventsIdempotent` | src/pages/History.jsx:56-75 | filtering the filtered history changes nothing |
| `History.MissingCreationHidesCard` | src/pages/History.jsx:57-75 | without the wallet's CardCreated event for a card, none of that card's events are shown |
| `History.FormatEventData` | src/pages/History.jsx:90-137 | exactly the six known kinds format, keeping card id and timestamp |
| `History.TitlesTellKinds` | src/pages/History.jsx:90-137 | distinct kinds get distinct titles |
| `History.Render` | src/pages/History.jsx:201-203 | a row appears exactly when some event formats to it, and there are no more rows than events |
| `History.RenderFormatsFiltered` | src/pages/History.jsx:201-203 | the rows are the formatted formattable events in their original order: null rows are skipped and nothing is reordered |
| `History.RenderAllKnown` | src/pages/History.jsx:201-203 | when every event is of a known kind, row i is event i formatted |
| `History.AllEventsKnown` | src/pages/History.jsx:31-54 | every fetched event is of a known kind, so the history renders all of them |
| `Ether.FormattedIsNotBigNumber` | src/pages/ManageCards.jsx:193 | text produced by `formatEther` is never a string `BigNumber.from` accepts |
| `Ether.FiveEther` | src/pages/ManageCards.jsx:38-40 | five ether is displayed as "5.0" |
| `Spend.FetchCards` | src/pages/Spend.jsx:32-68 | no wallet means no fetch; otherwise the ascending-id enumerated cards that are active with a positive balance, and all of them |
| `Spend.RecentSpends` | src/pages/Spend.jsx:70-102 | exactly the CardSpent events whose sender is the wallet, each as often as it was logged, newest first |
| `Spend.RecentSpendsAreSpends` | src/pages/Spend.jsx:83 | recent spends are all CardSpent events |
| `Spend.HandleSpend` | src/pages/Spend.jsx:118-167 | a spend is sent iff a card is selected, the recipient is an address and 0 < amount <= balance; confirmation clears amount and recipient; otherwise the form is unchanged and an error is shown |
| `Spend.SpendRejectionOrder` | src/pages/Spend.jsx:121-140 | a rejection names the first failing check: card, recipient, amount, balance |
| `Spend.NoDoubleSpend` | src/pages/Spend.jsx:157-158 | after a confirmed spend, an immediate resubmission is rejected |
| `Spend.LimitLeftToContract` | src/pages/Spend.jsx:137-149 | an amount within the balance is sent even when it exceeds what is available under the limit |
| `Spend.HandleQRScan` | src/pages/Spend.jsx:109-116 | a scanned address becomes the recipient; anything else leaves the form unchanged |
| `Spend.ScannedRecipientPasses` | src/pages/Spend.jsx:109-129 | after a valid scan, the recipient check of the spend passes |
| `ManageCards.FetchCards` | src/pages/ManageCards.jsx:23-63 | no wallet means no fetch; otherwise the shared enumeration: ascending ids below the stop, each the probed record of a card the wallet owns, and every such card |
| `ManageCards.HandleModalSubmit` | src/pages/ManageCards.jsx:113-159 | a request is sent iff the amount is positive and, in the withdraw modal, at most the balance; deposit only from the deposit modal; the modal closes only on confirmation |
| `ManageCards.DepositUnbounded` | src/pages/ManageCards.jsx:117-143 | any positive deposit is sent for the modal's card; there is no upper bound |
| `ManageCards.WithdrawBounded` | src/pages/ManageCards.jsx:122-143 | a withdrawal is sent iff 0 < amount <= balance; above it the error is insufficient balance |
| `ManageCards.PrefilledWithdrawal` | src/pages/ManageCards.jsx:171-179 | submitting the freshly opened withdraw modal asks to withdraw the prefilled balance as parsed, unless it is zero |
| `ManageCards.ModalReturnsToInitial` | src/pages/ManageCards.jsx:181-189 | a confirmed submission returns the page to its initial state; an unconfirmed one leaves the modal open |
| `ManageCards.LimitAnswer` | src/pages/ManageCards.jsx:194-202 | cancel or an empty answer does nothing; only a non-negative parsed limit is sent, for the clicked card |
| `ManageCards.ChangeLimitAlwaysFails` | src/pages/ManageCards.jsx:193 | as written, every "Change Limit" click ends in an error before the prompt opens |
| `ManageCards.ChangeLimitRequestSends` | src/pages/ManageCards.jsx:191-216 | corrected, a non-negative limit is sent for the card and cancelling shows nothing |
| `ManageCards.ToggleActive` | src/pages/ManageCards.jsx:69-76 | toggling asks the contract to set the card's status to the opposite of its current one |
| `ManageCards.CardActions` | src/pages/ManageCards.jsx:309-321 | the toggle asks for the status its caption names, so an inactive card can only be asked to activate; reset asks to clear that card's spent amount |
| `ManageCards.ButtonRules` | src/pages/ManageCards.jsx:310-347 | loading disables everything; an inactive card can only be toggled; withdraw also needs a non-zero balance, and an enabled withdraw button leads to a sendable withdrawal |
| `Header.TruncateAddress` | src/components/Header.jsx:13-16 | empty exactly for a missing or empty address; otherwise the address's first min(4, length) characters, "...", and its last as many |
| `Header.TruncatedShape` | src/components/Header.jsx:13-16 | an address of eight or more characters shows as eleven: its first four, "...", its last four |
| `Header.ShortAddressRepeats` | src/components/Header.jsx:15 | an address shorter than four shows in full on both sides |
| `Header.ControlRules` | src/components/Header.jsx:18-96 | exactly one control: connect without a wallet, switch on any network but "XPhere-Testnet", else the truncated-address badge, shown exactly when the navigation is |
| `Header.MobileMenuRules` | src/components/Header.jsx:41-107 | the mobile menu shows only when it is open and the desktop navigation would show; with the navigation showing, the menu button flips whether it shows |

## Left out

- Asynchrony, React state and rendering, toasts, loading spinners and console
  logging are not modelled. The only `loading` state modelled is the
  button-disabling rule.
- Floating point is not modelled. Displays go through `formatEther` and
  `parseFloat` with `toFixed(2)`; every figure here is integer wei.
  - The "% of total funds" tile (src/pages/Dashboard.jsx:351) is not
    modelled. It divides by zero for an empty portfolio.
  - The activity bar width (src/pages/Dashboard.jsx:402) is not modelled.
- Spend.HandleSpend and ManageCards.HandleModalSubmit: the amount sent is the
  one the checks parsed.
  - `parseEther` of the raw text and the `toFixed(18)` round trip
    (src/pages/ManageCards.jsx:135-136) are assumed to agree with
    `parseFloat`.
  - Float rounding is not modelled, for short inputs as much as long ones.
- ManageCards.PrefilledWithdrawal: the whole balance is sent only under the
  exact-parse abstraction. The source sends `parseUnits(n.toFixed(18))`, which
  for a 1.1 XPT balance is 1.100000000000000089 XPT (more than the balance) and
  for 0.3 XPT is 0.299999999999999989 XPT (leaving dust).
- Spend.HandleSpend and ManageCards.HandleModalSubmit: model the submit
  handler. The form's `required`, `min`, `max` and `step="0.1"` validation
  (src/pages/Spend.jsx:226-272, src/pages/ManageCards.jsx:377-384), which the
  browser runs before the handler, is not modelled. A blank field, an amount
  above the balance or off the 0.1 grid never reaches the handler there.
- `ethers.utils.isAddress` (checksum included) is a parameter.
  `toLocaleDateString` is a parameter mapping a timestamp to a day number.
- Addresses.ToLower: maps ASCII letters only. Addresses are hexadecimal, so
  JavaScript's full Unicode case mapping makes no difference here.
- Dashboard.FetchData: failures of the event queries or block lookups, which
  leave the page as it was, are not modelled. Every query is assumed to
  answer.
- History.FetchEvents: transport failures are not modelled. Only the failure
  the filter itself raises is modelled: a CardCreated event without an owner,
  or the wallet's own CardCreated event without a card id.
- Header.IsCorrectNetwork: models the flag after its effect has run. The first
  render, before the effect, shows it as false.
- `resetSpent`, `toggleActive` and `changeLimit` (ManageCards.LimitAnswer) are
  reduced to the request they send. Whether the contract accepts it, and the
  `fetchCards()` refresh after `tx.wait()`, are not modelled.
- History.FormatEventData: events are assumed to carry their ABI arguments.
  An event missing `amount`, `spendingLimit` or `newLimit` gets a row here,
  where `formatEther(undefined)` would throw during rendering in the source.
- Activity.KeysBelow: the ascending key order of `Object.entries` holds for
  array-index keys; ids of 2^32 - 1 and above would be listed in insertion
  order, which is not modelled.
- The contract itself, `WalletContext` (connecting and switching networks),
  `CreateCard`, `Home`, the QR scanner components and `TransactionModal` are
  not part of this model.

## Findings

| source | as written | input that shows it | evidently intended | confidence | as-written member | corrected member |
|---|---|---|---|---|---|---|
| src/pages/Dashboard.jsx:198 | Day keys are in first-occurrence order over newest-first events, so they run newest to oldest. Taking the last seven keys keeps the seven oldest days. | Events on eight distinct days 8, 7, ..., 1, newest first: day 8 is not plotted. | The seven most recent days, oldest to newest. | medium, not executed | DailyVolume.EightDaysDropsNewest | DailyVolume.RecentChartDataShowsNewest |
| src/pages/ManageCards.jsx:193 | The prompt default applies `formatEther` to `card.spendingLimit`, which is already `formatEther` text (line 346). `BigNumber.from` rejects text with a decimal point, so the call throws before the prompt opens. | Any card, e.g. a 5 ether limit shown as "5.0". | Build the default from the limit in wei (or show the displayed text as is), then send the typed limit. | high, not executed | ManageCards.ChangeLimitAlwaysFails | ManageCards.ChangeLimitRequestSends |
