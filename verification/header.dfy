/** The header: address truncation, the network check, the right-hand
    control, and when the navigation links are shown. */
module Header {
  import opened Wrappers
  import opened Addresses

  const TargetNetwork: string := "XPhere-Testnet"

  /** `address.slice(0, 4)`, clamped as JavaScript clamps it. */
  function Head(s: string): (r: string)
    ensures |r| == if |s| < 4 then |s| else 4
    ensures r == s[..|r|]
  {
    if |s| < 4 then s else s[..4]
  }

  /** `address.slice(-4)`: the whole text when it is shorter than four. */
  function Tail(s: string): (r: string)
    ensures |r| == if |s| < 4 then |s| else 4
    ensures r == s[|s| - |r|..]
  {
    if |s| < 4 then s else s[|s| - 4..]
  }

  /** `truncateAddress`: empty for a missing or empty address, otherwise the
      first four characters, "...", and the last four. */
  function TruncateAddress(address: Option<string>): (r: string)
    ensures !Truthy(address) <==> r == ""
    ensures Truthy(address) ==>
      var a := address.value;
      var n := if |a| < 4 then |a| else 4;
      && |r| == 2 * n + 3
      && r[..n] == a[..n]
      && r[n..n + 3] == "..."
      && r[n + 3..] == a[|a| - n..]
  {
    if !Truthy(address) then "" else Head(address.value) + "..." + Tail(address.value)
  }

  /** For an address of eight or more characters the badge is eleven
      characters, keeps the address's first and last four, and has "..." in
      the middle; a 42-character hex address shrinks to a quarter of its
      length or less. */
  lemma TruncatedShape(a: string)
    requires |a| >= 8
    ensures var r := TruncateAddress(Some(a));
      && |r| == 11
      && r[..4] == a[..4]
      && r[4..7] == "..."
      && r[7..] == a[|a| - 4..]
      && (|a| == 42 ==> 4 * |r| <= |a| + 2)
  {
    var r := TruncateAddress(Some(a));
    assert r == a[..4] + "..." + a[|a| - 4..];
  }

  /** A short address is shown in full on both sides of the dots. */
  lemma ShortAddressRepeats(a: string)
    requires 0 < |a| < 4
    ensures TruncateAddress(Some(a)) == a + "..." + a
  {
  }

  /** The effect on `network`: the header's `isCorrectNetwork` flag. */
  function IsCorrectNetwork(network: string): bool {
    network == TargetNetwork
  }

  /** The right-hand control. */
  datatype Control = ConnectWallet | SwitchNetwork | AddressBadge(text: string)

  function RightControl(wallet: Option<string>, network: string): Control {
    if !Truthy(wallet) then ConnectWallet
    else if !IsCorrectNetwork(network) then SwitchNetwork
    else AddressBadge(TruncateAddress(wallet))
  }

  /** The desktop navigation links. */
  predicate NavVisible(wallet: Option<string>, network: string) {
    Truthy(wallet) && IsCorrectNetwork(network)
  }

  /** The mobile menu. */
  predicate MobileMenuVisible(menuOpen: bool, wallet: Option<string>, network: string) {
    menuOpen && Truthy(wallet) && IsCorrectNetwork(network)
  }

  /** Exactly one of the three controls is shown, chosen by the wallet and
      network; the badge appears exactly when the navigation does, and
      then shows a non-empty truncation of the wallet. */
  lemma ControlRules(wallet: Option<string>, network: string)
    ensures RightControl(wallet, network) == ConnectWallet <==> !Truthy(wallet)
    ensures RightControl(wallet, network) == SwitchNetwork <==> Truthy(wallet) && network != TargetNetwork
    ensures RightControl(wallet, network).AddressBadge? <==> NavVisible(wallet, network)
    ensures RightControl(wallet, network).AddressBadge? ==>
      RightControl(wallet, network).text == TruncateAddress(wallet) && |RightControl(wallet, network).text| >= 5
  {
  }

  /** The mobile menu only ever shows links the desktop navigation would
      show, and a connected wallet on the right network shows them when the
      menu is open. */
  lemma MobileMenuRules(menuOpen: bool, wallet: Option<string>, network: string)
    ensures MobileMenuVisible(menuOpen, wallet, network) ==> NavVisible(wallet, network)
    ensures MobileMenuVisible(menuOpen, wallet, network) <==> menuOpen && NavVisible(wallet, network)
    ensures !menuOpen ==> !MobileMenuVisible(menuOpen, wallet, network)
    ensures NavVisible(wallet, network) ==>
      (MobileMenuVisible(ToggleMenu(menuOpen), wallet, network) <==> !MobileMenuVisible(menuOpen, wallet, network))
  {
  }

  /** The menu button flips the menu; following a link closes it. */
  function ToggleMenu(menuOpen: bool): (r: bool)
    ensures r != menuOpen
  {
    !menuOpen
  }
}
