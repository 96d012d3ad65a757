/** The wallet card's address abbreviation and the condition for its connected view. */
module WalletConnect {
  import opened Types
  import ContractHook

  /** `formatAddress`: `addr.slice(0, 6) + "..." + addr.slice(-4)`; both slices
      clamp to the string, so a short address is shown whole on each side. */
  function FormatAddress(addr: string): string
  {
    addr[..Min(6, |addr|)] + "..." + addr[Max(0, |addr| - 4)..]
  }

  /** For an address of at least ten characters the abbreviation is 13
      characters: the first six, three dots, and the last four. */
  lemma FormatAddressShape(addr: string)
    requires |addr| >= 10
    ensures var r := FormatAddress(addr);
      |r| == 13 && r[..6] == addr[..6] && r[6..9] == "..." && r[9..] == addr[|addr| - 4..]
  {
  }

  /** The abbreviation always begins with the address's first (up to) six
      characters and ends with its last (up to) four. */
  lemma FormatAddressKeepsEnds(addr: string)
    ensures var r := FormatAddress(addr);
      var head := Min(6, |addr|);
      var tail := Min(4, |addr|);
      |r| == head + 3 + tail && r[..head] == addr[..head] && r[|r| - tail..] == addr[|addr| - tail..]
  {
  }

  /** An Ethereum address: "0x" and forty hex digits. */
  predicate IsHexAddress(addr: string)
  {
    |addr| == 42 && addr[..2] == "0x"
  }

  /** A `0x` address keeps "0x", its first four and its last four hex digits. */
  lemma FormatHexAddress(addr: string)
    requires IsHexAddress(addr)
    ensures FormatAddress(addr) == "0x" + addr[2..6] + "..." + addr[38..]
  {
    assert addr[..6] == addr[..2] + addr[2..6];
  }

  /** `isConnected && address`: the connected view needs both. */
  predicate ConnectedViewShown(isConnected: bool, address: Option<string>)
  {
    isConnected && ContractHook.Present(address)
  }

  lemma ConnectedViewNeedsAddress(isConnected: bool, address: Option<string>)
    ensures ConnectedViewShown(isConnected, address) <==> isConnected && address.Some? && address.value != ""
  {
  }
}
