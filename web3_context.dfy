/**
 * `Web3Context`: the React provider that holds the wallet connection
 * (account, ethers provider, signer, chain id, connected flag) and the
 * operations that change it.
 *
 * The injected wallet (`window.ethereum`) is an input: `Option.None` when no
 * wallet is injected, otherwise a `Wallet` value fixing how it answers each
 * request. What the operations do to the outside world (toasts, requests to
 * the wallet, the page reload) is returned as a sequence of `Effect`s, in the
 * order the source performs them. `console.error` output is not modelled.
 */
module Web3Context {
  import opened Opt
  import opened Seqs
  import opened Text
  import opened Types

  /** The chain ids the context compares against (its own two constants). */
  const MAINNET_CHAIN_ID: nat := 43114
  const TESTNET_CHAIN_ID: nat := 43113

  predicate OnAvalanche(chainId: nat) {
    chainId == MAINNET_CHAIN_ID || chainId == TESTNET_CHAIN_ID
  }

  /** The context's two constants are the chains of the shared network table. */
  lemma OnAvalancheAgreesWithNetworks(chainId: nat)
    ensures OnAvalanche(chainId) <==> IsAvalancheChain(chainId)
  {
  }

  const WALLET_REQUIRED := "MetaMask or other Web3 wallet is required"
  const NO_ACCOUNTS := "No accounts found"
  const SWITCH_PROMPT := "Please switch to Avalanche C-Chain"
  const CONNECTED := "Wallet connected successfully!"
  const CONNECT_FAILED := "Failed to connect wallet"
  const DISCONNECTED := "Wallet disconnected"
  const ADD_FAILED := "Failed to add Avalanche network"
  const SWITCH_FAILED := "Failed to switch network"

  const CHAIN_NAME := "Avalanche C-Chain"
  const AVAX := "AVAX"
  const RPC_URL := "https://api.avax.network/ext/bc/C/rpc"
  const EXPLORER_URL := "https://snowtrace.io/"

  /** The error code a wallet gives when it does not know the requested chain. */
  const UNRECOGNIZED_CHAIN: int := 4902

  /** What a wallet request settles to: a value, or a rejection with its error code. */
  datatype Reply<T> = Answered(value: T) | Rejected(code: int)

  /**
   * The parameters of `wallet_addEthereumChain`. Chain ids travel to the
   * wallet as `HexQuantity(chainId)`; the model keeps the number.
   */
  datatype ChainParams = ChainParams(
    chainId: nat,
    chainName: string,
    currencyName: string,
    currencySymbol: string,
    decimals: nat,
    rpcUrls: seq<string>,
    blockExplorerUrls: seq<string>)

  /** The requests the context sends to the wallet. */
  datatype WalletCall =
    | RequestAccounts              // eth_requestAccounts
    | ListAccounts                 // eth_accounts
    | SwitchChain(chainId: nat)    // wallet_switchEthereumChain
    | AddChain(params: ChainParams) // wallet_addEthereumChain

  datatype Effect =
    | ToastError(message: string)
    | ToastSuccess(message: string)
    | Request(call: WalletCall)
    | Reload

  /**
   * An injected wallet, given by its answers: to `eth_requestAccounts`, to
   * `eth_accounts`, to `getSigner()`, to `getNetwork()` (the chain id), to
   * the chain switch and to the chain addition.
   */
  datatype Wallet = Wallet(
    requestAccounts: Reply<seq<string>>,
    listAccounts: Reply<seq<string>>,
    signer: Reply<Signer>,
    network: Reply<nat>,
    switchChain: Reply<()>,
    addChain: Reply<()>)

  /** An `ethers.BrowserProvider` over the injected wallet; its identity is not modelled. */
  datatype Provider = BrowserProvider

  /** The five state variables of the context. */
  datatype WalletState = WalletState(
    account: Option<string>,
    provider: Option<Provider>,
    signer: Option<Signer>,
    chainId: Option<nat>,
    isConnected: bool)

  /** The state and the effects an operation leaves behind. */
  datatype Transition = Transition(state: WalletState, effects: seq<Effect>)

  function Initial(): WalletState {
    WalletState(Option.None, Option.None, Option.None, Option.None, false)
  }

  function Connected(account: string, signer: Signer, chainId: nat): WalletState {
    WalletState(Some(account), Some(BrowserProvider), Some(signer), Some(chainId), true)
  }

  /** The chain id the wallet is asked to switch to, `0x${AVALANCHE_MAINNET.toString(16)}`, is "0xa86a". */
  lemma MainnetHexDigits()
    ensures HexQuantity(MAINNET_CHAIN_ID) == "0xa86a"
  {
    assert ToHex(10) == "a";
    assert ToHex(168) == ToHex(10) + [HexDigit(8)];
    assert ToHex(2694) == ToHex(168) + [HexDigit(6)];
    assert ToHex(43114) == ToHex(2694) + [HexDigit(10)];
  }

  function AvalancheParams(): ChainParams {
    ChainParams(MAINNET_CHAIN_ID, CHAIN_NAME, AVAX, AVAX, 18, [RPC_URL], [EXPLORER_URL])
  }

  /** `switchNetwork`: what it asks of the wallet and the toasts it shows. */
  function SwitchNetworkEffects(wallet: Option<Wallet>): (effects: seq<Effect>)
    ensures wallet.None? <==> effects == []
  {
    if wallet.None? then []
    else
      var w := wallet.value;
      [Request(SwitchChain(MAINNET_CHAIN_ID))] +
      match w.switchChain
      case Answered(_) => []
      case Rejected(code) =>
        if code == UNRECOGNIZED_CHAIN then
          [Request(AddChain(AvalancheParams()))] +
          (if w.addChain.Rejected? then [ToastError(ADD_FAILED)] else [])
        else [ToastError(SWITCH_FAILED)]
  }

  /** `connectWallet`. */
  function Connect(s: WalletState, wallet: Option<Wallet>): (t: Transition)
    ensures t.effects != []
    ensures t.state == s || (t.state.isConnected && t.state.account.Some? && t.state.chainId.Some?)
  {
    if wallet.None? then Transition(s, [ToastError(WALLET_REQUIRED)])
    else
      var w := wallet.value;
      var asked := [Request(RequestAccounts)];
      match w.requestAccounts
      case Rejected(_) => Transition(s, asked + [ToastError(CONNECT_FAILED)])
      case Answered(accounts) =>
        if |accounts| == 0 then Transition(s, asked + [ToastError(NO_ACCOUNTS)])
        else if w.signer.Rejected? || w.network.Rejected? then
          Transition(s, asked + [ToastError(CONNECT_FAILED)])
        else
          var connected := Connected(accounts[0], w.signer.value, w.network.value);
          if OnAvalanche(w.network.value) then
            Transition(connected, asked + [ToastSuccess(CONNECTED)])
          else
            Transition(connected, asked + [ToastError(SWITCH_PROMPT)] + SwitchNetworkEffects(wallet))
  }

  /** `disconnectWallet`. */
  function Disconnect(s: WalletState): (t: Transition)
    ensures !t.state.isConnected && t.state.account.None? && t.state.signer.None? && t.state.chainId.None?
  {
    Transition(Initial(), [ToastSuccess(DISCONNECTED)])
  }

  /** The `accountsChanged` listener. */
  function AccountsChanged(s: WalletState, accounts: seq<string>): (t: Transition)
    ensures |accounts| == 0 ==> !t.state.isConnected && t.state.account.None?
    ensures |accounts| > 0 ==> t.state.account == Some(accounts[0]) && t.state.isConnected == s.isConnected
  {
    if |accounts| == 0 then Disconnect(s)
    else Transition(s.(account := Some(accounts[0])), [])
  }

  /** The `chainChanged` listener, for a hex chain id as wallets send it. */
  function ChainChanged(s: WalletState, chainIdHex: string): (t: Transition)
    requires IsHexQuantity(chainIdHex)
    ensures t.state.chainId.Some? && t.state == s.(chainId := t.state.chainId)
    ensures t.effects == [Reload]
  {
    Transition(s.(chainId := Some(HexQuantityValue(chainIdHex))), [Reload])
  }

  /** `checkConnection`, run once on mount when a wallet is injected. */
  function ConnectionChecked(s: WalletState, w: Wallet): (t: Transition)
    ensures t.effects == [Request(ListAccounts)]
    ensures t.state == s || (t.state.isConnected && t.state.account.Some?)
  {
    var asked := [Request(ListAccounts)];
    match w.listAccounts
    case Rejected(_) => Transition(s, asked)
    case Answered(accounts) =>
      if |accounts| == 0 || w.signer.Rejected? || w.network.Rejected? then Transition(s, asked)
      else Transition(Connected(accounts[0], w.signer.value, w.network.value), asked)
  }

  predicate IsSwitchRequest(e: Effect) {
    e.Request? && e.call.SwitchChain?
  }

  predicate IsAddRequest(e: Effect) {
    e.Request? && e.call.AddChain?
  }

  predicate IsToast(e: Effect) {
    e.ToastError? || e.ToastSuccess?
  }

  /** The context starts disconnected. */
  lemma InitialIsDisconnected()
    ensures !Initial().isConnected && Initial().account.None? && Initial().chainId.None?
    ensures Initial().signer.None? && Initial().provider.None?
  {
  }

  /**
   * Without a wallet, or when the wallet refuses or has no account, or the
   * signer or network cannot be read, connecting changes no state and ends
   * with exactly one error toast.
   */
  lemma FailedConnectKeepsState(s: WalletState, wallet: Option<Wallet>)
    requires wallet.None? || wallet.value.requestAccounts.Rejected?
          || |wallet.value.requestAccounts.value| == 0
          || wallet.value.signer.Rejected? || wallet.value.network.Rejected?
    ensures Connect(s, wallet).state == s
    ensures var e := Connect(s, wallet).effects;
      |e| >= 1 && e[|e| - 1].ToastError? && Count(e, IsToast) == 1
  {
    var e := Connect(s, wallet).effects;
    if wallet.Some? {
      assert e[1..][1..] == [];
    }
  }

  /** A connect whose every read succeeds sets all five fields from the wallet's answers. */
  lemma ConnectSetsState(s: WalletState, w: Wallet)
    requires w.requestAccounts.Answered? && |w.requestAccounts.value| > 0
    requires w.signer.Answered? && w.network.Answered?
    ensures Connect(s, Some(w)).state
         == Connected(w.requestAccounts.value[0], w.signer.value, w.network.value)
    ensures Connect(s, Some(w)).state.isConnected
  {
  }

  /**
   * A successful connect asks the wallet to switch chains exactly once when
   * it is on neither Avalanche chain, and never otherwise.
   */
  lemma {:induction false} ConnectSwitchesOnlyOffAvalanche(s: WalletState, w: Wallet)
    requires w.requestAccounts.Answered? && |w.requestAccounts.value| > 0
    requires w.signer.Answered? && w.network.Answered?
    ensures Count(Connect(s, Some(w)).effects, IsSwitchRequest)
         == if OnAvalanche(w.network.value) then 0 else 1
  {
    var asked := [Request(RequestAccounts)];
    if OnAvalanche(w.network.value) {
      CountConcat(asked, [ToastSuccess(CONNECTED)], IsSwitchRequest);
    } else {
      var tail := SwitchNetworkEffects(Some(w));
      CountConcat(asked + [ToastError(SWITCH_PROMPT)], tail, IsSwitchRequest);
      CountConcat(asked, [ToastError(SWITCH_PROMPT)], IsSwitchRequest);
      CountConcat([Request(SwitchChain(MAINNET_CHAIN_ID))], tail[1..], IsSwitchRequest);
      assert tail == [Request(SwitchChain(MAINNET_CHAIN_ID))] + tail[1..];
      assert Count(tail[1..], IsSwitchRequest) == 0 by {
        assert forall i :: 0 <= i < |tail[1..]| ==> !IsSwitchRequest(tail[1..][i]);
        NoneCounted(tail[1..], IsSwitchRequest);
      }
    }
  }

  /**
   * `switchNetwork` asks to switch to mainnet first; it asks to add the
   * Avalanche chain exactly when the switch is rejected with code 4902, and
   * toasts only when a request fails.
   */
  lemma SwitchNetworkRequests(w: Wallet)
    ensures var e := SwitchNetworkEffects(Some(w));
      e[0] == Request(SwitchChain(MAINNET_CHAIN_ID))
      && ((exists i :: 0 <= i < |e| && IsAddRequest(e[i]))
          <==> w.switchChain == Rejected(UNRECOGNIZED_CHAIN))
      && ((exists i :: 0 <= i < |e| && IsToast(e[i]))
          <==> (w.switchChain.Rejected?
                && (w.switchChain.code != UNRECOGNIZED_CHAIN || w.addChain.Rejected?)))
  {
    var e := SwitchNetworkEffects(Some(w));
    if w.switchChain == Rejected(UNRECOGNIZED_CHAIN) {
      assert IsAddRequest(e[1]);
      if w.addChain.Rejected? {
        assert IsToast(e[2]);
      }
    } else if w.switchChain.Rejected? {
      assert IsToast(e[1]);
    }
  }

  /** Every chain the wallet is asked to switch to or add is Avalanche mainnet, as an AVAX chain with 18 decimals. */
  lemma {:induction false} SwitchNetworkTargetsMainnet(wallet: Option<Wallet>)
    ensures forall e <- SwitchNetworkEffects(wallet) ::
      (e.Request? && e.call.SwitchChain? ==> e.call.chainId == MAINNET_CHAIN_ID)
      && (e.Request? && e.call.AddChain? ==>
            e.call.params.chainId == MAINNET_CHAIN_ID
            && e.call.params.currencySymbol == AVAX && e.call.params.decimals == 18)
  {
    var es := SwitchNetworkEffects(wallet);
    forall e <- es
      ensures e.Request? && e.call.SwitchChain? ==> e.call.chainId == MAINNET_CHAIN_ID
      ensures e.Request? && e.call.AddChain? ==>
            e.call.params.chainId == MAINNET_CHAIN_ID
            && e.call.params.currencySymbol == AVAX && e.call.params.decimals == 18
    {
      assert e == Request(SwitchChain(MAINNET_CHAIN_ID)) || e == Request(AddChain(AvalancheParams())) || IsToast(e);
    }
  }

  /** The state a connect leaves does not depend on how the chain switch goes. */
  lemma ConnectStateIgnoresSwitch(s: WalletState, w: Wallet, switchChain: Reply<()>, addChain: Reply<()>)
    ensures Connect(s, Some(w)).state
         == Connect(s, Some(w.(switchChain := switchChain, addChain := addChain))).state
  {
  }

  /** Disconnecting returns to the initial state and is idempotent. */
  lemma DisconnectIdempotent(s: WalletState)
    ensures Disconnect(s).state == Initial()
    ensures Disconnect(Disconnect(s).state) == Disconnect(s)
  {
  }

  /** An empty account list disconnects; any other list changes only the account, to its first entry. */
  lemma AccountsChangedCases(s: WalletState, accounts: seq<string>)
    ensures |accounts| == 0 ==> AccountsChanged(s, accounts) == Disconnect(s)
    ensures |accounts| > 0 ==>
      AccountsChanged(s, accounts).effects == []
      && AccountsChanged(s, accounts).state == s.(account := Some(accounts[0]))
  {
  }

  /** A chain change to `0x<n in hex>` records chain `n`, keeps the rest, and reloads the page. */
  lemma ChainChangedRecordsChain(s: WalletState, n: nat)
    ensures ChainChanged(s, HexQuantity(n)).state == s.(chainId := Some(n))
    ensures ChainChanged(s, HexQuantity(n)).effects == [Reload]
  {
  }

  /**
   * Checking an existing connection never shows a toast, and either keeps the
   * state or connects to the first listed account.
   */
  lemma CheckConnectionIsSilent(s: WalletState, w: Wallet)
    ensures var t := ConnectionChecked(s, w);
      t.effects == [Request(ListAccounts)]
      && (t.state == s
          || (w.listAccounts.Answered? && |w.listAccounts.value| > 0
              && t.state == Connected(w.listAccounts.value[0], w.signer.value, w.network.value)))
  {
  }

  /** The provider component: its five state variables and the operations it exposes. */
  class Web3Provider {
    var account: Option<string>
    var provider: Option<Provider>
    var signer: Option<Signer>
    var chainId: Option<nat>
    var isConnected: bool

    function State(): WalletState
      reads this
    {
      WalletState(account, provider, signer, chainId, isConnected)
    }

    constructor()
      ensures State() == Initial()
    {
      account := Option.None;
      provider := Option.None;
      signer := Option.None;
      chainId := Option.None;
      isConnected := false;
    }

    method SetConnected(acc: string, sig: Signer, chain: nat)
      modifies this
      ensures State() == Connected(acc, sig, chain)
    {
      account := Some(acc);
      provider := Some(BrowserProvider);
      signer := Some(sig);
      chainId := Some(chain);
      isConnected := true;
    }

    method SwitchNetwork(wallet: Option<Wallet>) returns (effects: seq<Effect>)
      ensures effects == SwitchNetworkEffects(wallet)
    {
      if wallet.None? {
        return [];
      }
      var w := wallet.value;
      effects := [Request(SwitchChain(MAINNET_CHAIN_ID))];
      if w.switchChain.Rejected? {
        if w.switchChain.code == UNRECOGNIZED_CHAIN {
          effects := effects + [Request(AddChain(AvalancheParams()))];
          if w.addChain.Rejected? {
            effects := effects + [ToastError(ADD_FAILED)];
          }
        } else {
          effects := effects + [ToastError(SWITCH_FAILED)];
        }
      }
    }

    method ConnectWallet(wallet: Option<Wallet>) returns (effects: seq<Effect>)
      modifies this
      ensures State() == Connect(old(State()), wallet).state
      ensures effects == Connect(old(State()), wallet).effects
    {
      if wallet.None? {
        return [ToastError(WALLET_REQUIRED)];
      }
      var w := wallet.value;
      effects := [Request(RequestAccounts)];
      if w.requestAccounts.Rejected? {
        return effects + [ToastError(CONNECT_FAILED)];
      }
      var accounts := w.requestAccounts.value;
      if |accounts| == 0 {
        return effects + [ToastError(NO_ACCOUNTS)];
      }
      if w.signer.Rejected? || w.network.Rejected? {
        return effects + [ToastError(CONNECT_FAILED)];
      }
      SetConnected(accounts[0], w.signer.value, w.network.value);
      if !OnAvalanche(w.network.value) {
        var switched := SwitchNetwork(wallet);
        effects := effects + [ToastError(SWITCH_PROMPT)] + switched;
      } else {
        effects := effects + [ToastSuccess(CONNECTED)];
      }
    }

    method DisconnectWallet() returns (effects: seq<Effect>)
      modifies this
      ensures State() == Disconnect(old(State())).state
      ensures effects == Disconnect(old(State())).effects
    {
      account := Option.None;
      provider := Option.None;
      signer := Option.None;
      chainId := Option.None;
      isConnected := false;
      effects := [ToastSuccess(DISCONNECTED)];
    }

    method HandleAccountsChanged(accounts: seq<string>) returns (effects: seq<Effect>)
      modifies this
      ensures State() == AccountsChanged(old(State()), accounts).state
      ensures effects == AccountsChanged(old(State()), accounts).effects
    {
      if |accounts| == 0 {
        effects := DisconnectWallet();
      } else {
        account := Some(accounts[0]);
        effects := [];
      }
    }

    method HandleChainChanged(chainIdHex: string) returns (effects: seq<Effect>)
      requires IsHexQuantity(chainIdHex)
      modifies this
      ensures State() == ChainChanged(old(State()), chainIdHex).state
      ensures effects == ChainChanged(old(State()), chainIdHex).effects
    {
      chainId := Some(HexQuantityValue(chainIdHex));
      effects := [Reload];
    }

    method CheckConnection(w: Wallet) returns (effects: seq<Effect>)
      modifies this
      ensures State() == ConnectionChecked(old(State()), w).state
      ensures effects == ConnectionChecked(old(State()), w).effects
    {
      effects := [Request(ListAccounts)];
      if w.listAccounts.Answered? && |w.listAccounts.value| > 0
        && w.signer.Answered? && w.network.Answered? {
        SetConnected(w.listAccounts.value[0], w.signer.value, w.network.value);
      }
    }
  }
}
