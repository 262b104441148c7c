/** What the pages' amount fields hold, as far as their checks can tell:
    `parseFloat` of the typed text, in wei. Blank and unparsable text both
    read as NaN. */
module Forms {
  import opened Wrappers

  datatype AmountInput = Blank | Invalid | Wei(value: int)

  /** `parseFloat(amount)`, with NaN as None. */
  function Parsed(a: AmountInput): Option<int> {
    match a
    case Wei(n) => Some(n)
    case _ => None
  }

  /** Passes `isNaN(n) || n <= 0` without being rejected. */
  predicate PositiveAmount(a: AmountInput) {
    Parsed(a).Some? && Parsed(a).value > 0
  }
}
