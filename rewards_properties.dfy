/**
 * Properties of the rewards provider that relate several operations: the
 * mint rule as thresholds, the session invariant that ties `points` to the
 * stored ledger, sequences of grants, and reconnecting.
 */
module RewardsProperties {
  import opened Wrappers
  import opened RewardsModel

  /** During a session, the in-memory total is the one stored for the address. */
  ghost predicate Consistent(s: State) {
    IsConnected(s) ==> s.points == Stored(s.ledger, s.address.value)
  }

  /** A `grantPoints` call together with the way its mint, if any, ends. */
  datatype GrantCall = GrantCall(amount: int, outcome: MintOutcome)

  /** The accumulated effect of a sequence of grants. */
  datatype Run = Run(state: State, mints: nat, notices: seq<Notice>)

  function Sum(calls: seq<GrantCall>): int {
    if |calls| == 0 then 0 else calls[0].amount + Sum(calls[1..])
  }

  /** How many running totals, starting from `total`, satisfy the mint rule. */
  function MintsAlong(cfg: Config, total: int, calls: seq<GrantCall>): nat
    decreases |calls|
  {
    if |calls| == 0 then 0
    else
      var next := total + calls[0].amount;
      (if MintRule(cfg, next) then 1 else 0) + MintsAlong(cfg, next, calls[1..])
  }

  /** The grants run one after the other. */
  function RunGrants(cfg: Config, s: State, calls: seq<GrantCall>): Run
    decreases |calls|
  {
    if |calls| == 0 then Run(s, 0, [])
    else
      var g := Grant(cfg, s, calls[0].amount, calls[0].outcome);
      var rest := RunGrants(cfg, g.state, calls[1..]);
      Run(rest.state, (if g.mintAttempted then 1 else 0) + rest.mints, g.notices + rest.notices)
  }

  /**
   * The mint rule holds exactly at the reward thresholds 100, 200, 300, ...
   * and only when a token address is configured.
   */
  lemma MintRuleIffThreshold(cfg: Config, current: int)
    ensures MintRule(cfg, current) <==>
              cfg.TokenConfigured() && exists k: nat :: k >= 1 && current == Threshold(k)
  {
    if MintRule(cfg, current) {
      var k: nat := current / MINT_STEP;
      assert current == Threshold(k);
    }
    if cfg.TokenConfigured() && exists k: nat :: k >= 1 && current == Threshold(k) {
      var k: nat :| k >= 1 && current == Threshold(k);
      assert current % MINT_STEP == 0 by {
        assert current == MINT_STEP * k;
      }
    }
  }

  /** Every operation keeps `points` equal to the stored total during a session. */
  lemma ConsistencyPreserved(cfg: Config, s: State, w: Wallet, amount: int, outcome: MintOutcome)
    requires Consistent(s)
    ensures Consistent(Connect(cfg, s, w).state)
    ensures Consistent(Disconnect(s))
    ensures Consistent(Load(s))
    ensures Consistent(Grant(cfg, s, amount, outcome).state)
    ensures Consistent(MaybeMint(cfg, s, amount, outcome).state)
  {
  }

  /** The provider starts out consistent, whatever storage holds. */
  lemma InitialConsistent(storage: map<string, int>)
    ensures Consistent(Initial(storage))
  {
  }

  /**
   * After a disconnect, connecting as a (non-empty) first account `a` makes
   * `points` the total stored for `a`, 0 when it has none.
   */
  lemma ReconnectRestores(cfg: Config, s: State, w: Wallet)
    requires w.Wallet? && |w.accounts| > 0 && w.accounts[0] != ""
    ensures var r := Connect(cfg, Disconnect(s), w).state;
            && r.address == Some(w.accounts[0])
            && IsConnected(r)
            && r.points == Stored(s.ledger, w.accounts[0])
            && r.ledger == s.ledger
  {
  }

  /**
   * The mint outcome affects neither `points` nor the ledger: a failed mint
   * leaves the granted total in place.
   */
  lemma GrantIgnoresMintOutcome(cfg: Config, s: State, amount: int, o1: MintOutcome, o2: MintOutcome)
    ensures Grant(cfg, s, amount, o1).state.points == Grant(cfg, s, amount, o2).state.points
    ensures Grant(cfg, s, amount, o1).state.ledger == Grant(cfg, s, amount, o2).state.ledger
    ensures Grant(cfg, s, amount, o1).mintAttempted == Grant(cfg, s, amount, o2).mintAttempted
  {
  }

  /**
   * Without a session, any number of grants changes nothing, mints nothing,
   * and shows the connect-first notice once per call.
   */
  lemma {:induction false} GrantsWhileDisconnected(cfg: Config, s: State, calls: seq<GrantCall>)
    requires !IsConnected(s)
    ensures RunGrants(cfg, s, calls).state == s
    ensures RunGrants(cfg, s, calls).mints == 0
    ensures RunGrants(cfg, s, calls).notices == seq(|calls|, _ => ConnectWalletFirst)
  {
    if |calls| > 0 {
      GrantsWhileDisconnected(cfg, s, calls[1..]);
      assert [ConnectWalletFirst] + seq(|calls| - 1, _ => ConnectWalletFirst)
          == seq(|calls|, _ => ConnectWalletFirst);
    }
  }

  /**
   * During a session, a sequence of grants adds their amounts to `points`,
   * mints once for each running total that meets the rule and at no other
   * call, and touches no ledger entry but the session's.
   */
  lemma {:induction false} GrantsWhileConnected(cfg: Config, s: State, calls: seq<GrantCall>)
    requires IsConnected(s)
    ensures var r := RunGrants(cfg, s, calls).state;
            && r.address == s.address
            && r.points == s.points + Sum(calls)
            && (|calls| > 0 ==> Stored(r.ledger, s.address.value) == r.points)
            && r.ledger.Keys <= s.ledger.Keys + {s.address.value}
            && forall k :: k in s.ledger && k != s.address.value ==> k in r.ledger && r.ledger[k] == s.ledger[k]
    ensures RunGrants(cfg, s, calls).mints == MintsAlong(cfg, s.points, calls)
    decreases |calls|
  {
    if |calls| > 0 {
      var g := Grant(cfg, s, calls[0].amount, calls[0].outcome);
      GrantsWhileConnected(cfg, g.state, calls[1..]);
    }
  }

  /**
   * When `a` has no stored entry, the stored total after connecting as `a`
   * and granting is the sum of the amounts granted since.
   */
  lemma SumOfGrantsSinceFirstConnect(cfg: Config, s: State, w: Wallet, calls: seq<GrantCall>)
    requires Consistent(s)
    requires w.Wallet? && |w.accounts| > 0 && w.accounts[0] != ""
    requires w.accounts[0] !in s.ledger
    ensures var r := RunGrants(cfg, Connect(cfg, s, w).state, calls).state;
            && r.points == Sum(calls)
            && Stored(r.ledger, w.accounts[0]) == Sum(calls)
  {
    var c := Connect(cfg, s, w).state;
    ConsistencyPreserved(cfg, s, w, 0, FailedBeforeSubmit);
    assert c.points == 0;
    GrantsWhileConnected(cfg, c, calls);
  }

  /**
   * The stored value is overwritten with the in-memory total plus the amount,
   * not incremented: whatever the ledger held for the session's address, the
   * grant stores the same value there.
   */
  lemma GrantOverwritesStoredEntry(cfg: Config, s: State, l1: map<string, int>, l2: map<string, int>,
                                   amount: int, outcome: MintOutcome)
    requires IsConnected(s)
    ensures var a := s.address.value;
            && Grant(cfg, s.(ledger := l1), amount, outcome).state.ledger[a]
               == Grant(cfg, s.(ledger := l2), amount, outcome).state.ledger[a]
            && Grant(cfg, s.(ledger := l1), amount, outcome).state.ledger[a] == s.points + amount
  {
  }

  /** One user action on the provider. */
  datatype Op =
    | OpConnect(wallet: Wallet)
    | OpDisconnect
    | OpGrant(amount: int, outcome: MintOutcome)

  /** The state after one action. */
  function Step(cfg: Config, s: State, op: Op): State {
    match op
    case OpConnect(w) => Connect(cfg, s, w).state
    case OpDisconnect => Disconnect(s)
    case OpGrant(amount, outcome) => Grant(cfg, s, amount, outcome).state
  }

  /** The state after a sequence of actions. */
  function Trace(cfg: Config, s: State, ops: seq<Op>): State
    decreases |ops|
  {
    if |ops| == 0 then s else Trace(cfg, Step(cfg, s, ops[0]), ops[1..])
  }

  /** The amounts of the grants in `ops` that are made while the session is `a`. */
  function GrantedAs(cfg: Config, s: State, ops: seq<Op>, a: string): int
    decreases |ops|
  {
    if |ops| == 0 then 0
    else
      var here := if ops[0].OpGrant? && IsConnected(s) && s.address.value == a then ops[0].amount else 0;
      here + GrantedAs(cfg, Step(cfg, s, ops[0]), ops[1..], a)
  }

  /**
   * Across any mix of connects, disconnects, sessions as other accounts and
   * grants, the total stored for `a` grows by exactly the amounts granted
   * while the session was `a`, and the invariant is kept throughout.
   */
  lemma {:induction false} StoredIsGrantedSum(cfg: Config, s: State, ops: seq<Op>, a: string)
    requires Consistent(s)
    ensures Consistent(Trace(cfg, s, ops))
    ensures Stored(Trace(cfg, s, ops).ledger, a) == Stored(s.ledger, a) + GrantedAs(cfg, s, ops, a)
    decreases |ops|
  {
    if |ops| > 0 {
      var w := if ops[0].OpConnect? then ops[0].wallet else NoWallet;
      var amount := if ops[0].OpGrant? then ops[0].amount else 0;
      var outcome := if ops[0].OpGrant? then ops[0].outcome else FailedBeforeSubmit;
      ConsistencyPreserved(cfg, s, w, amount, outcome);
      StoredIsGrantedSum(cfg, Step(cfg, s, ops[0]), ops[1..], a);
    }
  }

  /**
   * From a fresh provider over storage with no entry for `a`, the stored total
   * for `a` is the sum of everything granted as `a` since, and during a
   * session as `a` the in-memory points equal it.
   */
  lemma SumOfGrantsAcrossSessions(cfg: Config, storage: map<string, int>, ops: seq<Op>, a: string)
    requires a !in storage
    ensures var r := Trace(cfg, Initial(storage), ops);
            && Stored(r.ledger, a) == GrantedAs(cfg, Initial(storage), ops, a)
            && (IsConnected(r) && r.address.value == a ==> r.points == GrantedAs(cfg, Initial(storage), ops, a))
  {
    InitialConsistent(storage);
    StoredIsGrantedSum(cfg, Initial(storage), ops, a);
  }

  /**
   * Connect as a fresh address with a token configured, grant 60 and then 40:
   * 100 points and exactly one mint, at the second grant. Granting 5 more
   * gives 105 points and no mint.
   */
  lemma FirstRewardExample(cfg: Config, storage: map<string, int>, a: string, o: MintOutcome)
    requires cfg.TokenConfigured() && a != "" && a !in storage
    ensures var c := Connect(cfg, Initial(storage), Wallet([a], cfg.chainId, true));
            var first := RunGrants(cfg, c.state, [GrantCall(60, o), GrantCall(40, o)]);
            var second := RunGrants(cfg, first.state, [GrantCall(5, o)]);
            && !c.switchRequested
            && first.state.points == 100 && first.mints == 1
            && !Grant(cfg, c.state, 60, o).mintAttempted
            && second.state.points == 105 && second.mints == 0
            && Stored(second.state.ledger, a) == 105
  {
    var c := Connect(cfg, Initial(storage), Wallet([a], cfg.chainId, true));
    var calls := [GrantCall(60, o), GrantCall(40, o)];
    GrantsWhileConnected(cfg, c.state, calls);
    assert c.state.points == 0;
    assert calls[1..] == [GrantCall(40, o)] && calls[1..][1..] == [];
    assert Sum(calls[1..]) == 40;
    assert MintRule(cfg, 100) && MintsAlong(cfg, 60, calls[1..]) == 1;
    var first := RunGrants(cfg, c.state, calls);
    GrantsWhileConnected(cfg, first.state, [GrantCall(5, o)]);
  }
}
