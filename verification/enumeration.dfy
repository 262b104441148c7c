/** Card discovery, as written (three times, identically) in the dashboard,
    spend and manage pages: probe ids 0, 1, 2, ... with `getCardInfo`, stop at
    the first probe that throws or after id 1000, and keep the cards whose
    owner equals the wallet ignoring case. */
module CardEnumeration {
  import opened Wrappers
  import opened Addresses
  import opened Sequences
  import opened Ledger

  /** The loop breaks once the next id would exceed this. */
  const ProbeCeiling: nat := 1000

  /** `card.owner.toLowerCase() === walletAddress.toLowerCase()` */
  predicate Owns(info: CardInfo, wallet: Address) {
    SameAddress(info.owner, wallet)
  }

  /** How many consecutive probes starting at id `from` return a card before
      one fails or the ceiling is passed. */
  function ProbeRun(ledger: CardLedger, from: nat): (n: nat)
    ensures from + n <= ProbeCeiling + 1 || n == 0
    ensures forall j :: from <= j < from + n ==> ledger(j).Some?
    ensures from + n > ProbeCeiling || ledger(from + n).None?
    decreases ProbeCeiling + 1 - from
  {
    if from > ProbeCeiling || ledger(from).None? then 0
    else 1 + ProbeRun(ledger, from + 1)
  }

  /** The number of ids that returned a card: the loop probes exactly ids
      0 .. Probed-1 successfully, then stops either because the next probe
      failed or because id 1000 has been probed. */
  function Probed(ledger: CardLedger): (n: nat)
    ensures n <= ProbeCeiling + 1
    ensures forall j :: 0 <= j < n ==> ledger(j).Some?
    ensures n == ProbeCeiling + 1 || ledger(n).None?
  {
    ProbeRun(ledger, 0)
  }

  /** The stopping point is unique: any `i` at which the loop's exit condition
      first holds is `Probed(ledger)`. */
  lemma ProbedIsFirstStop(ledger: CardLedger, i: nat)
    requires i <= ProbeCeiling + 1
    requires forall j :: 0 <= j < i ==> ledger(j).Some?
    requires i == ProbeCeiling + 1 || ledger(i).None?
    ensures Probed(ledger) == i
  {
  }

  predicate HasId(cards: seq<Card>, id: nat) {
    exists k :: 0 <= k < |cards| && cards[k].id == id
  }

  /** The owned cards among ids below `n`, in ascending id order. */
  function OwnedBelow(ledger: CardLedger, wallet: Address, n: nat): seq<Card> {
    if n == 0 then []
    else
      var prefix := OwnedBelow(ledger, wallet, n - 1);
      match ledger(n - 1)
      case Some(info) => if Owns(info, wallet) then prefix + [CardAt(n - 1, info)] else prefix
      case None => prefix
  }

  /** `OwnedBelow` lists, in ascending id order, exactly the owned cards
      among the ids below `n` that returned a card. */
  lemma {:induction false} OwnedBelowContents(ledger: CardLedger, wallet: Address, n: nat)
    ensures var r := OwnedBelow(ledger, wallet, n);
      && StrictlyAscending(r, (c: Card) => c.id)
      && (forall k :: 0 <= k < |r| ==>
            r[k].id < n && ledger(r[k].id).Some? && Owns(ledger(r[k].id).value, wallet)
            && r[k] == CardAt(r[k].id, ledger(r[k].id).value))
      && (forall j :: 0 <= j < n && ledger(j).Some? && Owns(ledger(j).value, wallet) ==> HasId(r, j))
  {
    if n > 0 {
      OwnedBelowContents(ledger, wallet, n - 1);
      var prefix := OwnedBelow(ledger, wallet, n - 1);
      if ledger(n - 1).Some? && Owns(ledger(n - 1).value, wallet) {
        var r := prefix + [CardAt(n - 1, ledger(n - 1).value)];
        assert r[|prefix|].id == n - 1;
        assert forall k :: 0 <= k < |prefix| ==> r[k] == prefix[k];
        forall j | 0 <= j < n - 1 && HasId(prefix, j) ensures HasId(r, j) {
          var k :| 0 <= k < |prefix| && prefix[k].id == j;
          assert r[k].id == j;
        }
      }
    }
  }

  /** One more successful probe appends the card when the wallet owns it. */
  lemma OwnedBelowStep(ledger: CardLedger, wallet: Address, i: nat, info: CardInfo)
    requires ledger(i) == Some(info)
    ensures OwnedBelow(ledger, wallet, i + 1) ==
      if Owns(info, wallet) then OwnedBelow(ledger, wallet, i) + [CardAt(i, info)]
      else OwnedBelow(ledger, wallet, i)
  {
  }

  /** What the probing loop of every page collects: the cards owned by
      `wallet` among the successfully probed ids. */
  function Enumerate(ledger: CardLedger, wallet: Address): (r: seq<Card>)
    ensures StrictlyAscending(r, (c: Card) => c.id)
    ensures forall k :: 0 <= k < |r| ==>
      r[k].id < Probed(ledger) && ledger(r[k].id).Some? && Owns(ledger(r[k].id).value, wallet)
      && r[k] == CardAt(r[k].id, ledger(r[k].id).value)
    ensures forall j :: 0 <= j < Probed(ledger) && Owns(ledger(j).value, wallet) ==> HasId(r, j)
  {
    OwnedBelowContents(ledger, wallet, Probed(ledger));
    OwnedBelow(ledger, wallet, Probed(ledger))
  }

  /** No card past the first failing probe is ever reported, even if the
      ledger has more cards for the wallet further on. */
  lemma {:induction false} NothingPastTheGap(ledger: CardLedger, wallet: Address, gap: nat)
    requires ledger(gap).None?
    ensures forall k :: 0 <= k < |Enumerate(ledger, wallet)| ==> Enumerate(ledger, wallet)[k].id < gap
  {
    var n := Probed(ledger);
    assert n <= gap;
  }

  /** The ownership test is case-insensitive: a wallet spelled with different
      letter case finds the same cards. */
  lemma {:induction false} EnumerateIgnoresCase(ledger: CardLedger, wallet: Address, other: Address, n: nat)
    requires ToLower(wallet) == ToLower(other)
    ensures OwnedBelow(ledger, wallet, n) == OwnedBelow(ledger, other, n)
  {
    if n > 0 {
      EnumerateIgnoresCase(ledger, wallet, other, n - 1);
    }
  }
}
