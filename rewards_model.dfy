/**
 * The rewards provider as a value: its state, the wallet and mint outcomes it
 * depends on, and one transition function per operation. These functions are
 * the specification that the class in rewards_provider.dfy is proved against.
 */
module RewardsModel {
  import opened Wrappers

  /** One token is minted each time the total reaches a multiple of this. */
  const MINT_STEP: int := 100
  /** The chain id used when none is configured (Sepolia). */
  const DEFAULT_CHAIN_ID: int := 11155111

  /** The build-time configuration: the token contract address ("" when unset) and the target chain. */
  datatype Config = Config(tokenAddress: string, chainId: int) {
    /** Minting is enabled exactly when a token address is set. */
    function TokenConfigured(): (r: bool)
      ensures r <==> |tokenAddress| > 0
    {
      tokenAddress != ""
    }
  }

  /**
   * Reads the configuration from the two environment variables; None stands
   * for a variable that is unset or empty.
   */
  function ConfigOf(tokenEnv: Option<string>, chainEnv: Option<int>): (c: Config)
    ensures c.TokenConfigured() <==> tokenEnv.Some? && tokenEnv.value != ""
    ensures chainEnv.None? ==> c.chainId == DEFAULT_CHAIN_ID
    ensures chainEnv.Some? ==> c.chainId == chainEnv.value
  {
    Config(if tokenEnv.Some? then tokenEnv.value else "",
           if chainEnv.Some? then chainEnv.value else DEFAULT_CHAIN_ID)
  }

  /**
   * The provider's state. `ledger` is the address-to-points object kept in
   * local storage; the other fields are the in-memory state.
   */
  datatype State = State(
    address: Option<string>,
    points: int,
    ledger: map<string, int>,
    isMinting: bool,
    tokenSymbol: string,
    tokenBalance: string)

  /** The notifications the provider shows to the user. */
  datatype Notice =
    | MetaMaskNotFound
    | WrongNetwork
    | ConnectWalletFirst
    | PointsAdded(amount: int, total: int)
    | MintSubmitted
    | RewardMinted(symbol: string)
    | MintFailed

  /**
   * What the injected wallet answers to a connect: nothing is injected, or
   * the accounts it returns, the chain id it reports, and whether a request
   * to switch networks would succeed.
   */
  datatype Wallet =
    | NoWallet
    | Wallet(accounts: seq<string>, chainId: int, switchSucceeds: bool)

  /**
   * How an attempted mint ends: it throws before a transaction exists, it
   * throws after the transaction was submitted (while waiting for it or
   * reading the balance), or it completes with the refreshed balance.
   */
  datatype MintOutcome =
    | FailedBeforeSubmit
    | FailedAfterSubmit
    | Minted(balance: string)

  datatype ConnectStep = ConnectStep(state: State, switchRequested: bool, notices: seq<Notice>)

  datatype GrantStep = GrantStep(state: State, mintAttempted: bool, notices: seq<Notice>)

  /** The state before anything happens, over whatever local storage already holds. */
  function Initial(storage: map<string, int>): (s: State)
    ensures !IsConnected(s) && s.address.None?
    ensures s.points == 0 && s.ledger == storage && !s.isMinting
    ensures s.tokenSymbol == "FNR" && s.tokenBalance == "0"
  {
    State(None, 0, storage, false, "FNR", "0")
  }

  /**
   * `isConnected`: a session exists when the address is truthy, that is
   * present and not the empty string.
   */
  function IsConnected(s: State): (r: bool)
    ensures r ==> s.address.Some?
    ensures r <==> s.address != None && s.address != Some("")
  {
    s.address.Some? && s.address.value != ""
  }

  /** The stored total for an address, 0 when the address has no entry. */
  function Stored(ledger: map<string, int>, a: string): (v: int)
    ensures a in ledger ==> v == ledger[a]
    ensures a !in ledger ==> v == 0
  {
    if a in ledger then ledger[a] else 0
  }

  /** `after` is `before` with key `k` set to `v` and every other entry as it was. */
  ghost predicate OnlyKeySet(before: map<string, int>, after: map<string, int>, k: string, v: int) {
    && after.Keys == before.Keys + {k}
    && after[k] == v
    && forall j :: j in before && j != k ==> after[j] == before[j]
  }

  /** savePoints: overwrite one key of the stored ledger. */
  function SavePoints(ledger: map<string, int>, addr: string, value: int): (r: map<string, int>)
    ensures OnlyKeySet(ledger, r, addr, value)
    ensures Stored(r, addr) == value
  {
    ledger[addr := value]
  }

  /**
   * The load effect, run whenever `address` changes: with a session, `points`
   * becomes the stored total for it; without one, nothing changes (in
   * particular `points` keeps its old value).
   */
  function Load(s: State): (r: State)
    ensures IsConnected(s) ==> r.points == Stored(s.ledger, s.address.value)
    ensures !IsConnected(s) ==> r == s
    ensures r.(points := s.points) == s
  {
    if IsConnected(s) then s.(points := Stored(s.ledger, s.address.value)) else s
  }

  /** The first account of a reply, absent when the list is empty. */
  function FirstAccount(accounts: seq<string>): (a: Option<string>)
    ensures a.Some? <==> |accounts| > 0
    ensures a.Some? ==> a.value == accounts[0]
  {
    if |accounts| > 0 then Some(accounts[0]) else None
  }

  /**
   * connect: without a wallet only a notice is shown. Otherwise a network
   * switch is requested when the chain differs from the configured one, the
   * address is set to the first account whatever the switch did, and the
   * load effect runs if the address changed.
   */
  function Connect(cfg: Config, s: State, w: Wallet): (r: ConnectStep)
    ensures w.NoWallet? ==> r.state == s && !r.switchRequested && r.notices == [MetaMaskNotFound]
    ensures r.switchRequested <==> w.Wallet? && w.chainId != cfg.chainId
    ensures w.Wallet? ==> r.state.address == FirstAccount(w.accounts)
    ensures w.Wallet? ==> r.notices == (if r.switchRequested && !w.switchSucceeds then [WrongNetwork] else [])
    ensures r.state.ledger == s.ledger && r.state.isMinting == s.isMinting
    ensures r.state.tokenSymbol == s.tokenSymbol && r.state.tokenBalance == s.tokenBalance
    ensures r.state.address != s.address && IsConnected(r.state) ==>
              r.state.points == Stored(s.ledger, r.state.address.value)
    ensures r.state.address == s.address || !IsConnected(r.state) ==> r.state.points == s.points
  {
    match w
    case NoWallet => ConnectStep(s, false, [MetaMaskNotFound])
    case Wallet(accounts, chainId, switchSucceeds) =>
      var switchRequested := chainId != cfg.chainId;
      var notices := if switchRequested && !switchSucceeds then [WrongNetwork] else [];
      var acc := FirstAccount(accounts);
      var s1 := s.(address := acc);
      ConnectStep(if acc != s.address then Load(s1) else s1, switchRequested, notices)
  }

  /**
   * disconnect: the session ends. The load effect that follows returns early,
   * so `points` and the ledger are kept.
   */
  function Disconnect(s: State): (r: State)
    ensures !IsConnected(r) && r.address.None?
    ensures r.points == s.points && r.ledger == s.ledger && r.isMinting == s.isMinting
    ensures r.tokenSymbol == s.tokenSymbol && r.tokenBalance == s.tokenBalance
  {
    s.(address := None)
  }

  /** The k-th reward threshold. */
  function Threshold(k: nat): int {
    MINT_STEP * k
  }

  /** The mint rule of `maybeMint`: a positive multiple of 100 with a token configured. */
  function MintRule(cfg: Config, current: int): (r: bool)
    ensures r ==> cfg.TokenConfigured() && current >= MINT_STEP
    ensures r <==> cfg.TokenConfigured() && current > 0 && current == MINT_STEP * (current / MINT_STEP)
  {
    current > 0 && current % MINT_STEP == 0 && cfg.TokenConfigured()
  }

  /**
   * maybeMint: when there is a session and the rule holds, `isMinting` is
   * raised, the mint runs to `outcome`, and `isMinting` is cleared whatever the
   * outcome. Only a completed mint changes the balance. Points and the ledger
   * are never touched.
   */
  function MaybeMint(cfg: Config, s: State, current: int, outcome: MintOutcome): (r: GrantStep)
    ensures r.mintAttempted <==> IsConnected(s) && MintRule(cfg, current)
    ensures !r.mintAttempted ==> r.state == s && r.notices == []
    ensures r.mintAttempted ==> !r.state.isMinting
    ensures r.state.address == s.address && r.state.points == s.points && r.state.ledger == s.ledger
    ensures r.state.tokenSymbol == s.tokenSymbol
    ensures r.state.tokenBalance == (if r.mintAttempted && outcome.Minted? then outcome.balance else s.tokenBalance)
    ensures r.mintAttempted ==> |r.notices| > 0 && (r.notices[|r.notices| - 1] == MintFailed <==> !outcome.Minted?)
    ensures r.mintAttempted ==> (MintSubmitted in r.notices <==> !outcome.FailedBeforeSubmit?)
  {
    if !IsConnected(s) || !MintRule(cfg, current) then GrantStep(s, false, [])
    else
      match outcome
      case FailedBeforeSubmit =>
        GrantStep(s.(isMinting := false), true, [MintFailed])
      case FailedAfterSubmit =>
        GrantStep(s.(isMinting := false), true, [MintSubmitted, MintFailed])
      case Minted(balance) =>
        GrantStep(s.(isMinting := false, tokenBalance := balance), true,
                  [MintSubmitted, RewardMinted(s.tokenSymbol)])
  }

  /**
   * grantPoints: refused without a session. Otherwise the new total is the
   * in-memory `points` plus `amount`; it is written both to `points` and over the
   * address's ledger entry (the stored value is not read), and then the mint
   * rule is evaluated on it. A failed mint rolls nothing back.
   */
  function Grant(cfg: Config, s: State, amount: int, outcome: MintOutcome): (r: GrantStep)
    ensures !IsConnected(s) ==> r.state == s && !r.mintAttempted && r.notices == [ConnectWalletFirst]
    ensures IsConnected(s) ==>
              && r.state.address == s.address
              && r.state.points == s.points + amount
              && OnlyKeySet(s.ledger, r.state.ledger, s.address.value, s.points + amount)
              && |r.notices| > 0 && r.notices[0] == PointsAdded(amount, s.points + amount)
    ensures r.mintAttempted <==> IsConnected(s) && MintRule(cfg, s.points + amount)
    ensures r.mintAttempted ==> !r.state.isMinting
    ensures !r.mintAttempted ==> r.state.isMinting == s.isMinting
    ensures r.state.tokenSymbol == s.tokenSymbol
    ensures r.state.tokenBalance == (if r.mintAttempted && outcome.Minted? then outcome.balance else s.tokenBalance)
  {
    if !IsConnected(s) then GrantStep(s, false, [ConnectWalletFirst])
    else
      var newPts := s.points + amount;
      var s1 := s.(points := newPts, ledger := SavePoints(s.ledger, s.address.value, newPts));
      var m := MaybeMint(cfg, s1, newPts, outcome);
      GrantStep(m.state, m.mintAttempted, [PointsAdded(amount, newPts)] + m.notices)
  }
}
