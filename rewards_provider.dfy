/**
 * The rewards provider as an object whose fields its operations update in
 * place, as the state setters of the provider component do. Every method is
 * proved to take the state `View()` to what the matching function of
 * RewardsModel prescribes.
 */
module Provider {
  import opened Wrappers
  import M = RewardsModel

  class RewardsProvider {
    /** The token address and chain id the provider was built with. */
    const config: M.Config

    var address: Option<string>
    var points: int
    /** The points object in local storage. */
    var ledger: map<string, int>
    var isMinting: bool
    var tokenSymbol: string
    var tokenBalance: string

    /** The object's state as a value. */
    function View(): M.State
      reads this
    {
      M.State(address, points, ledger, isMinting, tokenSymbol, tokenBalance)
    }

    /**
     * A provider built from the token-address and chain-id environment
     * variables, over whatever local storage already holds, with no session.
     */
    constructor (tokenEnv: Option<string>, chainEnv: Option<int>, storage: map<string, int>)
      ensures config == M.ConfigOf(tokenEnv, chainEnv)
      ensures View() == M.Initial(storage)
    {
      config := M.ConfigOf(tokenEnv, chainEnv);
      address := None;
      points := 0;
      ledger := storage;
      isMinting := false;
      tokenSymbol := "FNR";
      tokenBalance := "0";
    }

    /** `isConnected`, the truthiness of `address`. */
    function IsConnected(): (r: bool)
      reads this
      ensures r <==> M.IsConnected(View())
      ensures r ==> address.Some?
    {
      address.Some? && address.value != ""
    }

    /** The load effect that runs when `address` changes. */
    method LoadPoints()
      modifies this
      ensures View() == M.Load(old(View()))
    {
      if !IsConnected() {
        return;
      }
      var a := address.value;
      points := if a in ledger then ledger[a] else 0;
    }

    /** savePoints: read the stored object, overwrite one key, write it back. */
    method SavePoints(addr: string, value: int)
      modifies this`ledger
      ensures ledger == M.SavePoints(old(ledger), addr, value)
    {
      var stored := ledger;
      stored := stored[addr := value];
      ledger := stored;
    }

    method Connect(w: M.Wallet) returns (switchRequested: bool, notices: seq<M.Notice>)
      modifies this
      ensures M.ConnectStep(View(), switchRequested, notices) == M.Connect(config, old(View()), w)
    {
      switchRequested, notices := false, [];
      if w.NoWallet? {
        notices := [M.MetaMaskNotFound];
        return;
      }
      var acc := if |w.accounts| > 0 then Some(w.accounts[0]) else None;
      if w.chainId != config.chainId {
        switchRequested := true;
        if !w.switchSucceeds {
          notices := [M.WrongNetwork];
        }
      }
      var previous := address;
      address := acc;
      if acc != previous {
        LoadPoints();
      }
    }

    method Disconnect()
      modifies this`address
      ensures View() == M.Disconnect(old(View()))
    {
      address := None;
    }

    method MaybeMint(current: int, outcome: M.MintOutcome) returns (mintAttempted: bool, notices: seq<M.Notice>)
      modifies this
      ensures M.GrantStep(View(), mintAttempted, notices) == M.MaybeMint(config, old(View()), current, outcome)
    {
      mintAttempted, notices := false, [];
      if !IsConnected() {
        return;
      }
      if M.MintRule(config, current) {
        mintAttempted := true;
        isMinting := true;
        match outcome {
          case FailedBeforeSubmit =>
            notices := [M.MintFailed];
          case FailedAfterSubmit =>
            notices := [M.MintSubmitted, M.MintFailed];
          case Minted(balance) =>
            tokenBalance := balance;
            notices := [M.MintSubmitted, M.RewardMinted(tokenSymbol)];
        }
        isMinting := false;
      }
    }

    method GrantPoints(amount: int, outcome: M.MintOutcome) returns (mintAttempted: bool, notices: seq<M.Notice>)
      modifies this
      ensures M.GrantStep(View(), mintAttempted, notices) == M.Grant(config, old(View()), amount, outcome)
    {
      if !IsConnected() {
        mintAttempted, notices := false, [M.ConnectWalletFirst];
        return;
      }
      var newPts := points + amount;
      points := newPts;
      SavePoints(address.value, newPts);
      var mintNotices;
      mintAttempted, mintNotices := MaybeMint(newPts, outcome);
      notices := [M.PointsAdded(amount, newPts)] + mintNotices;
    }
  }
}
