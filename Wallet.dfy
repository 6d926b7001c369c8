/**
 * The wallet session of `useWallet`: a five-field state record, the list of
 * discovered tokens and a token-loading flag, updated in place by
 * `connect`, `disconnect` and their helpers. Every answer of the wallet
 * provider (its presence, the account list, the outcome of each request)
 * is an input instead of a call.
 */
module Wallet {
  import opened Wrappers
  import opened Tokens

  /** The `walletState` record. An empty `address` or `error` means "none". */
  datatype WalletState = WalletState(connected: bool, address: string, balance: real, loading: bool, error: string)

  /** The record the hook starts from and that `disconnect` writes back. */
  const Disconnected: WalletState := WalletState(false, "", 0.0, false, "")

  /** Wei per ether: the `Math.pow(10, 18)` divisor of the balance. */
  const WeiPerEth: nat := 1_000_000_000_000_000_000

  /** Chain id and name of the Base network the session switches to. */
  const BaseChainId: string := "0x2105"
  const BaseChainName: string := "Base"

  /** The provider's error code for a chain it does not know yet. */
  const UnrecognizedChainCode: int := 4902

  const NoProviderMessage: string := "MetaMask is not installed. Please install MetaMask to continue."
  const NoAccountsMessage: string := "No accounts found"

  /** The message `connect` shows when any of its steps throws. */
  function ConnectFailure(message: string): string {
    "Failed to connect wallet: " + message
  }

  /** The message `updateBalance` shows when the balance request throws. */
  function BalanceFailure(message: string): string {
    "Failed to get balance: " + message
  }

  /** The provider's answer to `eth_requestAccounts`: a list, or an error carrying a message. */
  datatype AccountsReply = Granted(accounts: seq<string>) | AccountsRejected(message: string)

  /** The provider's answer to `wallet_switchEthereumChain`. */
  datatype SwitchReply = Switched | SwitchRejected(code: int, message: string)

  /** The provider's answer to `wallet_addEthereumChain`. */
  datatype AddChainReply = ChainAdded | AddChainRejected(message: string)

  /** The provider's answer to `eth_getBalance`, already decoded to a whole number of wei. */
  datatype BalanceReply = BalanceWei(wei: nat) | BalanceRejected(message: string)

  /** The outcome of one discovery pass: one draw per catalog entry, or a failure. */
  datatype DiscoveryReply = Sampled(draws: seq<Draw>) | DiscoveryFailed

  /** Everything the environment answers during one run of `connect`. */
  datatype Gateway = Gateway(
    providerPresent: bool,
    accounts: AccountsReply,
    switchChain: SwitchReply,
    addChain: AddChainReply,
    balance: BalanceReply,
    discovery: DiscoveryReply)

  /** A request the session sends to the provider while negotiating the network. */
  datatype NetworkRequest = SwitchChain(chainId: string) | AddChain(chainId: string, chainName: string)

  /** What `switchToBaseNetwork` sent, and the message of the error it lets escape, if any. */
  datatype NetworkOutcome = NetworkOutcome(requests: seq<NetworkRequest>, thrown: Option<string>)

  /** A balance in wei, in ether. */
  function WeiToEth(wei: nat): (eth: real)
    ensures eth >= 0.0
    ensures eth * WeiPerEth as real == wei as real
  {
    wei as real / WeiPerEth as real
  }

  /**
   * `switchToBaseNetwork`: always one switch request; only the
   * "unrecognized chain" code 4902 adds a registration request, and the
   * switch is never retried. Any other switch error is swallowed; a failed
   * registration escapes to the caller.
   */
  function SwitchToBaseNetwork(switchReply: SwitchReply, addReply: AddChainReply): (r: NetworkOutcome)
    ensures 1 <= |r.requests| <= 2 && r.requests[0] == SwitchChain(BaseChainId)
    ensures forall i :: 1 <= i < |r.requests| ==> r.requests[i] == AddChain(BaseChainId, BaseChainName)
    ensures |r.requests| == 2 <==> switchReply.SwitchRejected? && switchReply.code == UnrecognizedChainCode
    ensures r.thrown.Some? <==> |r.requests| == 2 && addReply.AddChainRejected?
    ensures r.thrown.Some? ==> r.thrown.value == addReply.message
  {
    if switchReply.SwitchRejected? && switchReply.code == UnrecognizedChainCode then
      var requests := [SwitchChain(BaseChainId), AddChain(BaseChainId, BaseChainName)];
      match addReply
      case ChainAdded => NetworkOutcome(requests, None)
      case AddChainRejected(message) => NetworkOutcome(requests, Some(message))
    else
      NetworkOutcome([SwitchChain(BaseChainId)], None)
  }

  /** The balance `connect` stores: the queried one, or 0 when the query failed. */
  function BalanceAfterQuery(reply: BalanceReply): real {
    match reply
    case BalanceWei(wei) => WeiToEth(wei)
    case BalanceRejected(_) => 0.0
  }

  /** The error left after a run of `connect` that reaches its final write. */
  function ErrorAfterQuery(reply: BalanceReply): string {
    match reply
    case BalanceWei(_) => ""
    case BalanceRejected(message) => BalanceFailure(message)
  }

  /** The token list a discovery pass leaves: replaced wholesale, or kept when discovery failed. */
  function TokensAfterDiscovery(reply: DiscoveryReply, previous: seq<Token>): seq<Token>
    requires reply.Sampled? ==> |reply.draws| == |Catalog|
  {
    match reply
    case Sampled(draws) => Retained(Appraise(Catalog, draws))
    case DiscoveryFailed => previous
  }

  /** `connect` gets past the account and network steps and performs its final write. */
  predicate ReachesFinalWrite(g: Gateway) {
    && g.providerPresent
    && g.accounts.Granted? && |g.accounts.accounts| > 0
    && SwitchToBaseNetwork(g.switchChain, g.addChain).thrown.None?
  }

  class WalletSession {
    var state: WalletState
    var tokens: seq<Token>
    var loadingTokens: bool

    /** Between operations no discovery is in flight and every kept token is held. */
    ghost predicate Valid()
      reads this
    {
      !loadingTokens && forall t :: t in tokens ==> Held(t)
    }

    constructor ()
      ensures Valid()
      ensures state == Disconnected && tokens == []
    {
      state := Disconnected;
      tokens := [];
      loadingTokens := false;
    }

    /** `updateError`: set the message and stop loading; the rest of the record stays. */
    method UpdateError(message: string)
      modifies this`state
      ensures state == old(state).(error := message, loading := false)
    {
      state := state.(error := message, loading := false);
    }

    /**
     * `updateBalance`: store and return the balance in ether; on failure
     * report the error, stop loading and return 0 with the stored balance untouched.
     */
    method UpdateBalance(reply: BalanceReply) returns (eth: real)
      modifies this`state
      ensures eth == BalanceAfterQuery(reply)
      ensures reply.BalanceWei? ==> state == old(state).(balance := eth)
      ensures reply.BalanceRejected? ==> state == old(state).(error := BalanceFailure(reply.message), loading := false)
    {
      match reply
      case BalanceWei(wei) =>
        eth := WeiToEth(wei);
        state := state.(balance := eth);
      case BalanceRejected(message) =>
        UpdateError(BalanceFailure(message));
        eth := 0.0;
    }

    /**
     * `fetchClankerTokens`: replace the token list with the held tokens of
     * the catalog, or keep it when discovery fails; the loading flag is
     * down again either way.
     */
    method FetchClankerTokens(reply: DiscoveryReply)
      requires Valid()
      requires reply.Sampled? ==> |reply.draws| == |Catalog|
      modifies this`tokens, this`loadingTokens
      ensures Valid()
      ensures tokens == TokensAfterDiscovery(reply, old(tokens))
    {
      loadingTokens := true;
      if reply.Sampled? {
        tokens := Retained(Appraise(Catalog, reply.draws));
      }
      loadingTokens := false;
    }

    /**
     * `connect`, run to completion with the environment's answers in `g`.
     * Each way out leaves the record in its own shape; only a run that gets
     * past the network step sets `connected`, and it may still carry the
     * balance error.
     */
    method Connect(g: Gateway)
      requires Valid()
      requires g.discovery.Sampled? ==> |g.discovery.draws| == |Catalog|
      modifies this`state, this`tokens, this`loadingTokens
      ensures Valid() && !state.loading
      ensures !g.providerPresent ==>
        state == old(state).(error := NoProviderMessage, loading := false) && tokens == old(tokens)
      ensures g.providerPresent && g.accounts.AccountsRejected? ==>
        state == old(state).(error := ConnectFailure(g.accounts.message), loading := false) && tokens == old(tokens)
      ensures g.providerPresent && g.accounts == Granted([]) ==>
        state == old(state).(error := ConnectFailure(NoAccountsMessage), loading := false) && tokens == old(tokens)
      ensures g.providerPresent && g.accounts.Granted? && g.accounts.accounts != [] && !ReachesFinalWrite(g) ==>
        var thrown := SwitchToBaseNetwork(g.switchChain, g.addChain).thrown;
        thrown.Some? && state == old(state).(error := ConnectFailure(thrown.value), loading := false) && tokens == old(tokens)
      ensures ReachesFinalWrite(g) ==>
        && state == WalletState(true, g.accounts.accounts[0], BalanceAfterQuery(g.balance), false, ErrorAfterQuery(g.balance))
        && tokens == TokensAfterDiscovery(g.discovery, old(tokens))
      ensures state.connected != old(state.connected) ==> ReachesFinalWrite(g)
    {
      if !g.providerPresent {
        UpdateError(NoProviderMessage);
        return;
      }
      state := state.(loading := true, error := "");
      if g.accounts.AccountsRejected? {
        UpdateError(ConnectFailure(g.accounts.message));
        return;
      }
      var accounts := g.accounts.accounts;
      if |accounts| == 0 {
        UpdateError(ConnectFailure(NoAccountsMessage));
        return;
      }
      var address := accounts[0];
      var network := SwitchToBaseNetwork(g.switchChain, g.addChain);
      if network.thrown.Some? {
        UpdateError(ConnectFailure(network.thrown.value));
        return;
      }
      var balance := UpdateBalance(g.balance);
      FetchClankerTokens(g.discovery);
      state := state.(connected := true, address := address, balance := balance, loading := false);
    }

    /** `disconnect`: the zeroed record and no tokens, whatever came before. */
    method Disconnect()
      requires Valid()
      modifies this`state, this`tokens
      ensures Valid()
      ensures state == Disconnected && tokens == []
    {
      state := Disconnected;
      tokens := [];
    }
  }

  /**
   * A balance query that fails during an otherwise successful `connect`
   * leaves the session connected with the balance error showing.
   */
  method ConnectedDespiteBalanceError() returns (s: WalletState)
    ensures s.connected && s.error == BalanceFailure("timeout") && s.balance == 0.0
  {
    var w := new WalletSession();
    w.Connect(Gateway(true, Granted(["0xA11CE"]), Switched, ChainAdded, BalanceRejected("timeout"), DiscoveryFailed));
    s := w.state;
  }

  /**
   * An empty account list after a successful connection keeps the earlier
   * connection: only `error` and `loading` change.
   */
  method NoAccountsKeepsEarlierSession() returns (s: WalletState)
    ensures s.connected && s.address == "0xA11CE" && s.error == ConnectFailure(NoAccountsMessage)
  {
    var w := new WalletSession();
    w.Connect(Gateway(true, Granted(["0xA11CE"]), Switched, ChainAdded, BalanceWei(WeiPerEth), DiscoveryFailed));
    w.Connect(Gateway(true, Granted([]), Switched, ChainAdded, BalanceWei(0), DiscoveryFailed));
    s := w.state;
  }
}
