/**
 * The two pure helpers of the navigation bar: the shortened form in which the
 * connected account is shown, and the test that highlights the link of the
 * current page.
 */
module Navbar {
  import opened Wrappers
  import opened JsString
  import Web3Context

  /**
   * `truncateAddress`: "" for the empty string, otherwise the first six
   * characters, "..." and the last four, each taken with `slice` and so
   * clamped to the string.
   */
  function TruncateAddress(address: string): (r: string)
    ensures address == "" ==> r == ""
    ensures address != "" ==>
      r == address[..Min(6, |address|)] + "..." + address[|address| - Min(4, |address|)..]
  {
    if address == "" then "" else Slice(address, 0, Some(6)) + "..." + Slice(address, -4, None)
  }

  /** An address of ten or more characters, such as a 42-character hex address, shrinks to 13. */
  lemma TruncateLongAddress(address: string)
    requires |address| >= 10
    ensures var r := TruncateAddress(address);
      |r| == 13 && r[..6] == address[..6] && r[6..9] == "..." && r[9..] == address[|address| - 4..]
  {
  }

  /** The first and the last character of a non-empty input survive truncation. */
  lemma TruncateKeepsEnds(address: string)
    requires address != ""
    ensures var r := TruncateAddress(address);
      r != "" && r[0] == address[0] && r[|r| - 1] == address[|address| - 1]
  {
  }

  /** Short inputs are clamped rather than padded, so their characters repeat. */
  lemma TruncateShortAddress()
    ensures TruncateAddress("abc") == "abc...abc"
    ensures TruncateAddress("0x1234567") == "0x1234...4567"
  {
  }

  /** `isActive`: the current location is exactly `path`. */
  function IsActive(pathname: string, path: string): bool
  {
    pathname == path
  }

  /** The paths of the three navigation links, in display order. */
  const NavLinks: seq<string> := ["/projects", "/list-project", "/dao"]

  /**
   * A link is highlighted exactly when the location is its path, so at most
   * one of the three links is highlighted, and a nested page highlights none.
   */
  lemma ActiveLinks(pathname: string)
    ensures forall i :: 0 <= i < |NavLinks| ==> (IsActive(pathname, NavLinks[i]) <==> pathname == NavLinks[i])
    ensures forall i, j :: 0 <= i < j < |NavLinks| ==> !(IsActive(pathname, NavLinks[i]) && IsActive(pathname, NavLinks[j]))
    ensures !IsActive("/projects/1", "/projects")
  {
  }

  /** What the right-hand side of the bar shows. */
  datatype WalletArea = AddressBadge(text: string) | ConnectButton

  /** `{account ? <badge>{truncateAddress(account)}</badge> : <Connect Wallet button>}`: an empty or absent account is falsy. */
  function WalletAreaFor(account: Option<string>): WalletArea
  {
    if account.Some? && account.value != "" then AddressBadge(TruncateAddress(account.value)) else ConnectButton
  }

  /**
   * Read through the bar: after the wallet reports an empty account list the
   * connect button is back; after it reports a full-length address first, the
   * badge shows that address's first six and last four characters.
   */
  lemma WalletAreaAfterAccountsChanged(s: Web3Context.Session, accounts: seq<string>)
    ensures accounts == [] ==> WalletAreaFor(Web3Context.OnAccountsChanged(s, accounts).account) == ConnectButton
    ensures |accounts| > 0 && |accounts[0]| >= 10 ==>
      var area := WalletAreaFor(Web3Context.OnAccountsChanged(s, accounts).account);
      area.AddressBadge? && |area.text| == 13 &&
      area.text == accounts[0][..6] + "..." + accounts[0][|accounts[0]| - 4..]
  {
  }
}
