# GreenStake wallet session and navigation helpers, in Dafny

This project models the two pieces of logic in the GreenStake browser client
that are not rendering or library calls:

- **The wallet session** (`src/context/Web3Context.tsx`). The `Web3Provider`
  component keeps four pieces of state: `account`, `chainId`, the ethers
  `provider` and its `signer`. Three things change them:
  - `connectWallet`, which needs an injected wallet (`window.ethereum`),
    requests the accounts, queries the network, and then assigns all four
    fields together;
  - the wallet's `accountsChanged` event, which sets the account to the first
    entry of the list, or `null` when the list is empty;
  - the wallet's `chainChanged` event, which decodes the announced hex chain id
    with `parseInt(x, 16)`.
- **The navigation bar helpers** (`src/components/layout/Navbar.tsx`).
  `truncateAddress` shortens an address with JavaScript's `slice`. `isActive`
  tests whether a link's path is the current location.

Modules:

- `Wrappers` (wrappers.dfy): `Option`, standing for `null`, and `Result`, the
  reply of a wallet call that either returns or throws.
- `JsParseInt` (js_parse_int.dfy): `parseInt(string, 16)` following
  section 19.2.5 of ECMA-262. It trims leading white space, reads an optional
  sign, strips `0x`/`0X`, and takes the longest hexadecimal-digit prefix. NaN is
  `None`. `ToHex` is a hex encoder used to prove the decode's round trip.
- `JsString` (js_string.dfy): `String.prototype.slice` of ECMA-262, with
  negative and clamped positions.
- `Web3Context` (web3_context.dfy): the session as a value (`Session`), one
  function per operation (`Connect`, `OnAccountsChanged`, `OnChainChanged`), and
  replay of any sequence of steps with "last write wins" lemmas. The class
  `Web3Provider` holds the four fields; its methods are proved to change them
  exactly as those functions say.
- `Navbar` (navbar.dfy): `TruncateAddress`, `IsActive`, and the choice between
  the address badge and the connect button.

`Web3Context.ConnectThenSwitch` is a worked example of the class. It connects
on Sepolia with one account, switches account, reports an empty account list,
and then tries to connect with no wallet. Its assertions are what a caller can
conclude from the methods' contracts alone.

Inputs stand in for the calls out of the program:
- whether `window.ethereum` exists is an `Option<InjectedWallet>`;
- the results of `eth_requestAccounts` and `getNetwork` are `Result` values,
  each either a value or a thrown error.

The events' strings are parameters of the handler methods.

`Web3Context.tsx` keeps only the four fields. It shows one generic failure
toast for anything the wallet calls throw, and a separate install hint when no
wallet is injected. It registers its listeners at most once, at mount, and only
if a wallet is present.

## Model

| member | source | states |
|---|---|---|
| `JsParseInt.ParseIntHex` | src/context/Web3Context.tsx:65 | `parseInt(s, 16)`, NaN as `None`; no ensures of its own: its behaviour is stated by `ParseChainIdHex`, `ParseToHex` and `ParseSepolia`, and its steps by `TrimStart` and `LongestHexPrefix` |
| `JsParseInt.TrimStart` | src/context/Web3Context.tsx:65 | the first step of `parseInt`: the result is a suffix of the input, everything dropped is ECMA-262 white space, and the result does not start with white space |
| `JsParseInt.LongestHexPrefix` | src/context/Web3Context.tsx:65 | the digits `parseInt` reads: a prefix of the input, all hexadecimal digits, stopping at the end or at the first non-digit |
| `JsParseInt.ParseChainIdHex` | src/context/Web3Context.tsx:65 | on a `0x`-prefixed string of hex digits, `parseInt(s, 16)` is the base-16 value of the digits after the prefix |
| `JsParseInt.HexValueOfToHex` | src/context/Web3Context.tsx:65 | reading back the hex numeral of `n` gives `n` |
| `JsParseInt.ParseToHex` | src/context/Web3Context.tsx:65 | round trip: `parseInt("0x" + n.toString(16), 16) == n` for every natural `n`, and that string is a well-formed chain id |
| `JsParseInt.ParseSepolia` | src/context/Web3Context.tsx:65 | `parseInt("0xaa36a7", 16) == 11155111` (Sepolia) |
| `JsString.Slice` | src/components/layout/Navbar.tsx:16 | `String.prototype.slice`; no ensures of its own: its behaviour is stated by `SliceHead` and `SliceTail` |
| `JsString.SliceHead` | src/components/layout/Navbar.tsx:16 | `s.slice(0, k)` is the first `min(k, length)` characters |
| `JsString.SliceTail` | src/components/layout/Navbar.tsx:16 | `s.slice(-k)` for positive `k` is the last `min(k, length)` characters |
| `Navbar.TruncateAddress` | src/components/layout/Navbar.tsx:14-17 | `""` gives `""`; a non-empty string of length n gives its first min(6,n) characters, then `"..."`, then its last min(4,n) characters |
| `Navbar.TruncateLongAddress` | src/components/layout/Navbar.tsx:16 | for n >= 10 (a 42-character address included) the result has length 13: the first 6 characters, `"..."`, the last 4 |
| `Navbar.TruncateKeepsEnds` | src/components/layout/Navbar.tsx:16 | the first and last characters of a non-empty input are the first and last characters of the output |
| `Navbar.TruncateShortAddress` | src/components/layout/Navbar.tsx:16 | short inputs are clamped, not padded: `"abc"` gives `"abc...abc"`; a 9-character input gives 13 characters that overlap |
| `Navbar.IsActive` | src/components/layout/Navbar.tsx:12 | `location.pathname === path`; no ensures of its own: its behaviour is stated by `ActiveLinks` |
| `Navbar.ActiveLinks` | src/components/layout/Navbar.tsx:12-53 | `isActive` is plain `===` on the pathname by definition (the first ensures only records that); what the lemma adds: at most one of the three links is highlighted; a nested path such as `/projects/1` does not highlight `/projects` |
| `Navbar.WalletAreaFor` | src/components/layout/Navbar.tsx:62-75 | the badge for a truthy account, the connect button otherwise; no ensures of its own: its behaviour is stated by `WalletAreaAfterAccountsChanged` |
| `Navbar.WalletAreaAfterAccountsChanged` | src/components/layout/Navbar.tsx:62-75 | after an empty account list the bar shows the connect button; after a list whose first address has 10 or more characters it shows the 13-character truncation of that address |
| `Web3Context.Connect` | src/context/Web3Context.tsx:30-52 | `connectWallet` on session values; no ensures of its own: its behaviour is stated by `ConnectAllOrNothing` and `ConnectOverwrites`, and `Web3Provider.ConnectWallet` is proved against it |
| `Web3Context.ConnectAllOrNothing` | src/context/Web3Context.tsx:30-52 | without a wallet, or when either wallet call throws, the session is unchanged; the success toast appears exactly when a wallet is present and both calls succeed; otherwise the install hint (no wallet) or the failure toast (a call threw) |
| `Web3Context.ConnectOverwrites` | src/context/Web3Context.tsx:38-45 | a successful connect sets `account` to the first returned account, `chainId` to the network's id, and `provider` and a signer bound to it; the result does not depend on the prior session |
| `Web3Context.OnAccountsChanged` | src/context/Web3Context.tsx:56-62 | the `accountsChanged` listener on session values; no ensures of its own: its behaviour is stated by `AccountsChangedFrame` |
| `Web3Context.AccountsChangedFrame` | src/context/Web3Context.tsx:56-62 | `accountsChanged` sets `account` to the first element, or `null` for an empty list, and leaves `chainId`, `provider` and `signer` unchanged |
| `Web3Context.OnChainChanged` | src/context/Web3Context.tsx:64-66 | the `chainChanged` listener on session values; no ensures of its own: its behaviour is stated by `ChainChangedFrame` and `ChainChangedToSepolia` |
| `Web3Context.ChainChangedFrame` | src/context/Web3Context.tsx:64-66 | `chainChanged` sets `chainId` to the value of the hex digits and leaves `account`, `provider` and `signer` unchanged |
| `Web3Context.ChainChangedToSepolia` | src/context/Web3Context.tsx:64-66 | the event `"0xaa36a7"` sets `chainId` to 11155111 |
| `Web3Context.ReplayAccount` | src/context/Web3Context.tsx:42-62 | after any sequence of connects and wallet events, `account` is what the most recent account-writing step set (an account event, or a successful connect), or the initial value if there was none |
| `Web3Context.ReplayChainId` | src/context/Web3Context.tsx:43-66 | after any sequence of steps, `chainId` is what the most recent chain event or successful connect set, or the initial value if there was none |
| `Web3Context.LastAccountsEventWins` | src/context/Web3Context.tsx:56-62 | once account events happen and no later step writes the account, `account` is the first entry of the most recent list, or `null` if that list was empty |
| `Web3Context.EventsKeepProviderAndSigner` | src/context/Web3Context.tsx:54-67 | a sequence without a successful connect leaves `provider` and `signer` as they were |
| `Web3Context.ReplayCoherent` | src/context/Web3Context.tsx:40-45 | every sequence of steps keeps the signer bound to the provider held beside it, and absent exactly when the provider is |
| `Web3Context.AccountWithoutProvider` | src/context/Web3Context.tsx:54-62 | account events are handled from mount, before any connect, so a session can hold an account with no provider or signer |
| `Web3Context.Web3Provider.constructor` | src/context/Web3Context.tsx:25-28 | the initial session has `account`, `chainId`, `provider` and `signer` all `null` |
| `Web3Context.Web3Provider.ConnectWallet` | src/context/Web3Context.tsx:30-52 | no wallet: install hint, nothing changes; a call throws: failure toast, nothing changes; both succeed: all four fields assigned from the replies and the success toast; the new state is `Connect` of the old one |
| `Web3Context.Web3Provider.HandleAccountsChanged` | src/context/Web3Context.tsx:56-62 | the account becomes the first entry, or `null` for an empty list; the other three fields are unchanged |
| `Web3Context.Web3Provider.HandleChainChanged` | src/context/Web3Context.tsx:64-66 | `chainId` becomes the hex value of the announced string; the other three fields are unchanged |

## Left out

- Rendering, toasts on screen, and `console.error`: the toast is modelled as the message `connectWallet` would show, and the log is not modelled.
- Listener registration and the `removeAllListeners` cleanup (src/context/Web3Context.tsx:54-74): React lifecycle plumbing. Only the handlers' effect on the state is modelled. The effect registers the listeners only when `window.ethereum` exists at mount (src/context/Web3Context.tsx:55); `Step` sequences nevertheless allow account and chain events with no wallet, or after a wallet injected later connects. This over-approximates the events the code can receive, which is harmless: every replay lemma holds for all sequences of steps.
- Interleaving inside `connectWallet`: the two awaits are collapsed into one step at the commit. Events delivered during the awaits come before that commit. The commit overwrites all four fields (`ConnectOverwrites`), so the result is the same as for events delivered before the connect.
- `Web3Context.Web3Provider.HandleChainChanged`: requires a well-formed `0x`-prefixed hex string, as wallets announce chain ids. The source would store NaN or a partly read value for other strings. The model's `ParseIntHex` covers those strings too, with NaN as `None`, but the session field has no NaN.
- `JsParseInt.ParseIntHex`: returns the exact integer. JavaScript rounds values above 2^53 - 1 to a double, and returns -0 for `"-0x0"`. Both are floating-point effects. Real chain ids are far below that bound.
- `eth_requestAccounts` returning something other than an array of strings is not modelled. An empty array makes `accounts[0]` `undefined`. The model treats that as `null`, as the navbar's truthiness test does.
- Strings are sequences of Unicode scalar values, while JavaScript counts UTF-16 code units. The two agree on the ASCII addresses and paths used here.
- The page components, `ProjectCard`'s floating-point and date formatting, the contract registry, the wagmi configuration and the routing: rendering or calls into ethers, wagmi and viem, with no logic of their own beyond "return if no account" guards.
