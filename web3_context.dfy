/**
 * The process-wide wallet session held by the `Web3Provider` component: the
 * connected `account`, the `chainId` of the wallet's network, the ethers
 * `provider` wrapping the injected wallet and the `signer` obtained from it.
 *
 * Three things change the session: the user's `connectWallet` request and the
 * wallet's `accountsChanged` and `chainChanged` events.  Each is specified by a
 * function on `Session` values; the class `Web3Provider` holds the four fields
 * and its methods are proved to change them exactly as those functions say.
 * The calls into the wallet (`eth_requestAccounts`, `getNetwork`) and the
 * presence of `window.ethereum` are inputs.
 */
module Web3Context {
  import opened Wrappers
  import opened JsParseInt

  /** Account addresses are the strings the wallet reports. */
  type Address = string

  /** The wallet object a browser extension injects as `window.ethereum`, told apart by an id. */
  datatype InjectedWallet = InjectedWallet(id: nat)

  /** An ethers `Web3Provider`: a wrapper around one injected wallet. */
  datatype EthersProvider = EthersProvider(wallet: InjectedWallet)

  /** The signer `provider.getSigner()` returns: it signs through that provider. */
  datatype EthersSigner = EthersSigner(provider: EthersProvider)

  /** What `provider.getNetwork()` resolves to. */
  datatype Network = Network(name: string, chainId: nat)

  /** Whatever a failed wallet call throws; it is only logged. */
  datatype WalletError = WalletError(message: string)

  /** The reply of one asynchronous call into the wallet. */
  type Reply<T> = Result<T, WalletError>

  /** The notification `connectWallet` shows. */
  datatype Toast = ErrorToast(message: string) | SuccessToast(message: string)

  const InstallWalletMessage: string := "Please install MetaMask to use this dApp"
  const ConnectFailedMessage: string := "Failed to connect wallet"
  const ConnectedMessage: string := "Wallet connected successfully!"

  /** The four pieces of state; `None` is `null`. */
  datatype Session = Session(
    account: Option<Address>,
    chainId: Option<int>,
    provider: Option<EthersProvider>,
    signer: Option<EthersSigner>)

  /** Every field starts as `null`. */
  const InitialSession: Session := Session(None, None, None, None)

  /**
   * The signer, when there is one, belongs to the provider held beside it:
   * both are set together by a successful connect and by nothing else.
   */
  predicate Coherent(s: Session)
  {
    s.signer == if s.provider.Some? then Some(EthersSigner(s.provider.value)) else None
  }

  /**
   * The account a list of accounts designates: its first entry, or `null` when
   * it is empty.  (`accounts[0]` of an empty list is `undefined`, which the
   * application treats as it treats `null`.)
   */
  function FirstAccount(accounts: seq<Address>): Option<Address>
  {
    if |accounts| > 0 then Some(accounts[0]) else None
  }

  /** Both wallet calls of a connect succeeded, with a wallet present. */
  predicate ConnectSucceeds(wallet: Option<InjectedWallet>, accountsReply: Reply<seq<Address>>, networkReply: Reply<Network>)
  {
    wallet.Some? && accountsReply.Ok? && networkReply.Ok?
  }

  datatype ConnectOutcome = ConnectOutcome(session: Session, toast: Toast)

  /**
   * `connectWallet`.  Without an injected wallet it only shows the install hint.
   * Otherwise it requests the accounts and then the network; if either call
   * throws (the network query is not made when the account request throws,
   * so its reply is then ignored) it shows a failure and changes nothing.
   * Only when both succeed are the four fields assigned, together.
   */
  function Connect(s: Session, wallet: Option<InjectedWallet>, accountsReply: Reply<seq<Address>>, networkReply: Reply<Network>): ConnectOutcome
  {
    if wallet.None? then ConnectOutcome(s, ErrorToast(InstallWalletMessage))
    else if accountsReply.Err? || networkReply.Err? then ConnectOutcome(s, ErrorToast(ConnectFailedMessage))
    else
      var p := EthersProvider(wallet.value);
      ConnectOutcome(
        Session(FirstAccount(accountsReply.value), Some(networkReply.value.chainId), Some(p), Some(EthersSigner(p))),
        SuccessToast(ConnectedMessage))
  }

  /** The `accountsChanged` listener. */
  function OnAccountsChanged(s: Session, accounts: seq<Address>): Session
  {
    s.(account := FirstAccount(accounts))
  }

  /** The `chainChanged` listener: `setChainId(parseInt(chainId, 16))`. */
  function OnChainChanged(s: Session, chainIdHex: string): Session
    requires IsChainIdHex(chainIdHex)
  {
    ParseChainIdHex(chainIdHex);
    s.(chainId := Some(ParseIntHex(chainIdHex).value))
  }

  /** A connect that fails, for whichever reason, leaves the session as it was. */
  lemma ConnectAllOrNothing(s: Session, wallet: Option<InjectedWallet>, accountsReply: Reply<seq<Address>>, networkReply: Reply<Network>)
    ensures var o := Connect(s, wallet, accountsReply, networkReply);
      (!ConnectSucceeds(wallet, accountsReply, networkReply) ==> o.session == s) &&
      (o.toast.SuccessToast? <==> ConnectSucceeds(wallet, accountsReply, networkReply)) &&
      (wallet.None? ==> o.toast == ErrorToast(InstallWalletMessage)) &&
      (wallet.Some? && !ConnectSucceeds(wallet, accountsReply, networkReply) ==> o.toast == ErrorToast(ConnectFailedMessage))
  {
  }

  /**
   * A successful connect sets all four fields from the wallet's replies alone:
   * the result does not depend on the session before it, and it is coherent.
   */
  lemma ConnectOverwrites(s: Session, t: Session, wallet: Option<InjectedWallet>, accountsReply: Reply<seq<Address>>, networkReply: Reply<Network>)
    requires ConnectSucceeds(wallet, accountsReply, networkReply)
    ensures var r := Connect(s, wallet, accountsReply, networkReply).session;
      r == Connect(t, wallet, accountsReply, networkReply).session &&
      r.account == FirstAccount(accountsReply.value) &&
      r.chainId == Some(networkReply.value.chainId) &&
      r.provider == Some(EthersProvider(wallet.value)) &&
      Coherent(r)
  {
  }

  /** `accountsChanged` sets the account from the list and leaves every other field alone. */
  lemma AccountsChangedFrame(s: Session, accounts: seq<Address>)
    ensures var r := OnAccountsChanged(s, accounts);
      r.account == FirstAccount(accounts) &&
      r.chainId == s.chainId && r.provider == s.provider && r.signer == s.signer
  {
  }

  /** `chainChanged` sets the chain id to the value of its hex digits and leaves every other field alone. */
  lemma ChainChangedFrame(s: Session, chainIdHex: string)
    requires IsChainIdHex(chainIdHex)
    ensures var r := OnChainChanged(s, chainIdHex);
      r.chainId == Some(HexValue(chainIdHex[2..])) &&
      r.account == s.account && r.provider == s.provider && r.signer == s.signer
  {
    ParseChainIdHex(chainIdHex);
  }

  /** The Sepolia example: "0xaa36a7" sets the chain id to 11155111. */
  lemma ChainChangedToSepolia(s: Session)
    ensures IsChainIdHex("0xaa36a7")
    ensures OnChainChanged(s, "0xaa36a7").chainId == Some(11155111)
  {
    ParseSepolia();
  }

  // ---------------------------------------------------------------------
  // Sequences of steps

  /** One thing that happens to the session. */
  datatype Step =
    | UserConnects(wallet: Option<InjectedWallet>, accountsReply: Reply<seq<Address>>, networkReply: Reply<Network>)
    | AccountsChanged(accounts: seq<Address>)
    | ChainChanged(chainIdHex: string)

  /** A step the model can take: chain ids arrive as well-formed hex strings. */
  predicate StepWellFormed(e: Step)
  {
    e.ChainChanged? ==> IsChainIdHex(e.chainIdHex)
  }

  predicate StepsWellFormed(steps: seq<Step>)
  {
    forall i :: 0 <= i < |steps| ==> StepWellFormed(steps[i])
  }

  function Apply(s: Session, e: Step): Session
    requires StepWellFormed(e)
  {
    match e
    case UserConnects(w, ar, nr) => Connect(s, w, ar, nr).session
    case AccountsChanged(a) => OnAccountsChanged(s, a)
    case ChainChanged(h) => OnChainChanged(s, h)
  }

  /** The session after the steps, first step first. */
  function Replay(s: Session, steps: seq<Step>): Session
    requires StepsWellFormed(steps)
    decreases |steps|
  {
    if steps == [] then s else Replay(Apply(s, steps[0]), steps[1..])
  }

  /** The step writes `account`: an account event, or a connect that succeeds. */
  predicate WritesAccount(e: Step)
  {
    e.AccountsChanged? || (e.UserConnects? && ConnectSucceeds(e.wallet, e.accountsReply, e.networkReply))
  }

  /** The step writes `chainId`: a chain event, or a connect that succeeds. */
  predicate WritesChainId(e: Step)
  {
    e.ChainChanged? || (e.UserConnects? && ConnectSucceeds(e.wallet, e.accountsReply, e.networkReply))
  }

  /**
   * The reference for "last write wins": look back from the latest step for the
   * last one that writes `account`; it decides the account, and with none the
   * account is the one the session started with.
   */
  function LatestAccount(init: Option<Address>, steps: seq<Step>): Option<Address>
    decreases |steps|
  {
    if steps == [] then init
    else
      var e := steps[|steps| - 1];
      if e.AccountsChanged? then FirstAccount(e.accounts)
      else if WritesAccount(e) then FirstAccount(e.accountsReply.value)
      else LatestAccount(init, steps[..|steps| - 1])
  }

  /** The same reference for `chainId`. */
  function LatestChainId(init: Option<int>, steps: seq<Step>): Option<int>
    requires StepsWellFormed(steps)
    decreases |steps|
  {
    if steps == [] then init
    else
      var e := steps[|steps| - 1];
      if e.ChainChanged? then Some(HexValue(e.chainIdHex[2..]))
      else if WritesChainId(e) then Some(e.networkReply.value.chainId)
      else LatestChainId(init, steps[..|steps| - 1])
  }

  /** Replaying one more step is applying it to the replay of the others. */
  lemma {:induction false} ReplaySnoc(s: Session, steps: seq<Step>, e: Step)
    requires StepsWellFormed(steps) && StepWellFormed(e)
    ensures StepsWellFormed(steps + [e])
    ensures Replay(s, steps + [e]) == Apply(Replay(s, steps), e)
    decreases |steps|
  {
    assert StepsWellFormed(steps + [e]) by {
      forall i | 0 <= i < |steps + [e]| ensures StepWellFormed((steps + [e])[i]) {
        if i < |steps| { assert (steps + [e])[i] == steps[i]; }
      }
    }
    if steps != [] {
      assert (steps + [e])[1..] == steps[1..] + [e];
      ReplaySnoc(Apply(s, steps[0]), steps[1..], e);
    }
  }

  /** The prefix of a well-formed sequence of steps is well formed. */
  lemma PrefixWellFormed(steps: seq<Step>)
    requires steps != [] && StepsWellFormed(steps)
    ensures StepsWellFormed(steps[..|steps| - 1]) && StepWellFormed(steps[|steps| - 1])
    ensures steps == steps[..|steps| - 1] + [steps[|steps| - 1]]
  {
  }

  /** After any sequence of steps, the account is the one the most recent account-writing step set. */
  lemma {:induction false} ReplayAccount(s: Session, steps: seq<Step>)
    requires StepsWellFormed(steps)
    ensures Replay(s, steps).account == LatestAccount(s.account, steps)
    decreases |steps|
  {
    if steps != [] {
      var p, e := steps[..|steps| - 1], steps[|steps| - 1];
      PrefixWellFormed(steps);
      ReplaySnoc(s, p, e);
      ReplayAccount(s, p);
    }
  }

  /** After any sequence of steps, the chain id is the one the most recent chain-writing step set. */
  lemma {:induction false} ReplayChainId(s: Session, steps: seq<Step>)
    requires StepsWellFormed(steps)
    ensures Replay(s, steps).chainId == LatestChainId(s.chainId, steps)
    decreases |steps|
  {
    if steps != [] {
      var p, e := steps[..|steps| - 1], steps[|steps| - 1];
      PrefixWellFormed(steps);
      ReplaySnoc(s, p, e);
      ReplayChainId(s, p);
      if e.ChainChanged? {
        ParseChainIdHex(e.chainIdHex);
      }
    }
  }

  /**
   * Last event wins: when the account event at position `i` is followed by no
   * account event and no successful connect, the account is the first entry of
   * that event's list, or `null` if the list was empty.
   */
  lemma {:induction false} LastAccountsEventWins(s: Session, steps: seq<Step>, i: nat)
    requires StepsWellFormed(steps)
    requires i < |steps| && steps[i].AccountsChanged?
    requires forall j :: i < j < |steps| ==> !WritesAccount(steps[j])
    ensures Replay(s, steps).account == FirstAccount(steps[i].accounts)
  {
    ReplayAccount(s, steps);
    LatestAccountAt(s.account, steps, i);
  }

  lemma {:induction false} LatestAccountAt(init: Option<Address>, steps: seq<Step>, i: nat)
    requires i < |steps| && steps[i].AccountsChanged?
    requires forall j :: i < j < |steps| ==> !WritesAccount(steps[j])
    ensures LatestAccount(init, steps) == FirstAccount(steps[i].accounts)
    decreases |steps|
  {
    if i < |steps| - 1 {
      var p := steps[..|steps| - 1];
      assert !WritesAccount(steps[|steps| - 1]);
      assert forall j :: i < j < |p| ==> p[j] == steps[j];
      LatestAccountAt(init, p, i);
    }
  }

  /**
   * Wallet events never touch the provider or the signer, and a failed connect
   * does not either: with no successful connect among the steps both keep their
   * initial values.
   */
  lemma {:induction false} EventsKeepProviderAndSigner(s: Session, steps: seq<Step>)
    requires StepsWellFormed(steps)
    requires forall j :: 0 <= j < |steps| ==> !(steps[j].UserConnects? && ConnectSucceeds(steps[j].wallet, steps[j].accountsReply, steps[j].networkReply))
    ensures Replay(s, steps).provider == s.provider && Replay(s, steps).signer == s.signer
    decreases |steps|
  {
    if steps != [] {
      var p, e := steps[..|steps| - 1], steps[|steps| - 1];
      PrefixWellFormed(steps);
      ReplaySnoc(s, p, e);
      assert forall j :: 0 <= j < |p| ==> p[j] == steps[j];
      EventsKeepProviderAndSigner(s, p);
    }
  }

  /** Every step keeps the signer bound to the provider beside it. */
  lemma {:induction false} ReplayCoherent(s: Session, steps: seq<Step>)
    requires Coherent(s) && StepsWellFormed(steps)
    ensures Coherent(Replay(s, steps))
    decreases |steps|
  {
    if steps != [] {
      ReplayCoherent(Apply(s, steps[0]), steps[1..]);
    }
  }

  /**
   * The account can be set without any connect: account events are delivered
   * from the moment the component mounts, so a session may hold an account but
   * no provider or signer.
   */
  lemma AccountWithoutProvider()
    ensures var r := Replay(InitialSession, [AccountsChanged(["0xAAA"])]);
      r.account == Some("0xAAA") && r.provider == None && r.signer == None
  {
  }

  // ---------------------------------------------------------------------
  // The component's state

  /** The state the `Web3Provider` component keeps with `useState`. */
  class Web3Provider {
    var account: Option<Address>
    var chainId: Option<int>
    var provider: Option<EthersProvider>
    var signer: Option<EthersSigner>

    function State(): Session
      reads this
    {
      Session(account, chainId, provider, signer)
    }

    ghost predicate Valid()
      reads this
    {
      Coherent(State())
    }

    /** Mounting the component: every field is `null`. */
    constructor ()
      ensures Valid() && State() == InitialSession
      ensures account == None && chainId == None && provider == None && signer == None
    {
      account, chainId, provider, signer := None, None, None, None;
    }

    /** `connectWallet`, given whether a wallet is injected and the replies of its two calls. */
    method ConnectWallet(wallet: Option<InjectedWallet>, accountsReply: Reply<seq<Address>>, networkReply: Reply<Network>)
      returns (toast: Toast)
      requires Valid()
      modifies this
      ensures Valid()
      ensures State() == Connect(old(State()), wallet, accountsReply, networkReply).session
      ensures toast == Connect(old(State()), wallet, accountsReply, networkReply).toast
      ensures wallet.None? ==> toast == ErrorToast(InstallWalletMessage) && State() == old(State())
      ensures wallet.Some? && !ConnectSucceeds(wallet, accountsReply, networkReply) ==>
        toast == ErrorToast(ConnectFailedMessage) && State() == old(State())
      ensures ConnectSucceeds(wallet, accountsReply, networkReply) ==>
        toast == SuccessToast(ConnectedMessage) &&
        account == FirstAccount(accountsReply.value) &&
        chainId == Some(networkReply.value.chainId) &&
        provider == Some(EthersProvider(wallet.value)) &&
        signer == Some(EthersSigner(EthersProvider(wallet.value)))
    {
      if wallet.None? {
        toast := ErrorToast(InstallWalletMessage);
        return;
      }
      var p := EthersProvider(wallet.value);
      if accountsReply.Err? {
        toast := ErrorToast(ConnectFailedMessage);
        return;
      }
      var accounts := accountsReply.value;
      if networkReply.Err? {
        toast := ErrorToast(ConnectFailedMessage);
        return;
      }
      var network := networkReply.value;
      var s := EthersSigner(p);
      account := if |accounts| > 0 then Some(accounts[0]) else None;
      chainId := Some(network.chainId);
      provider := Some(p);
      signer := Some(s);
      toast := SuccessToast(ConnectedMessage);
    }

    /** The `accountsChanged` listener. */
    method HandleAccountsChanged(accounts: seq<Address>)
      requires Valid()
      modifies this
      ensures Valid()
      ensures State() == OnAccountsChanged(old(State()), accounts)
      ensures |accounts| > 0 ==> account == Some(accounts[0])
      ensures |accounts| == 0 ==> account == None
      ensures chainId == old(chainId) && provider == old(provider) && signer == old(signer)
    {
      if |accounts| > 0 {
        account := Some(accounts[0]);
      } else {
        account := None;
      }
    }

    /** The `chainChanged` listener. */
    method HandleChainChanged(chainIdHex: string)
      requires Valid()
      requires IsChainIdHex(chainIdHex)
      modifies this
      ensures Valid()
      ensures State() == OnChainChanged(old(State()), chainIdHex)
      ensures chainId == Some(HexValue(chainIdHex[2..]))
      ensures account == old(account) && provider == old(provider) && signer == old(signer)
    {
      ParseChainIdHex(chainIdHex);
      var parsed := ParseIntHex(chainIdHex);
      chainId := Some(parsed.value);
    }
  }

  /**
   * A session driven through the component: connect on Sepolia with one
   * approved account, switch account, then disconnect all accounts.
   */
  method ConnectThenSwitch()
  {
    var w := new Web3Provider();
    var t := w.ConnectWallet(Some(InjectedWallet(0)), Ok(["0xAAA"]), Ok(Network("sepolia", 11155111)));
    assert t == SuccessToast(ConnectedMessage);
    assert w.account == Some("0xAAA") && w.chainId == Some(11155111);
    w.HandleAccountsChanged(["0xBBB", "0xAAA"]);
    assert w.account == Some("0xBBB") && w.chainId == Some(11155111);
    w.HandleAccountsChanged([]);
    assert w.account == None && w.provider == Some(EthersProvider(InjectedWallet(0)));
    var u := w.ConnectWallet(None, Ok(["0xCCC"]), Ok(Network("sepolia", 11155111)));
    assert u == ErrorToast(InstallWalletMessage) && w.account == None;
  }
}
