# Rewards ledger and session model

A Dafny model of the rewards provider of a web application. The provider
connects to a browser wallet, keeps a per-address point total in local
storage (the JSON object under `finora_points`), and mints one token when a
grant brings the total to a positive multiple of 100, provided a token
contract address is configured.

The project has four modules:

- `Wrappers` (wrappers.dfy): the `Option` type used for the nullable address.
- `RewardsModel` (rewards_model.dfy): the provider's state as a value, the
  wallet reply, the mint outcome, the notifications, and one transition function per
  operation (`Load`, `SavePoints`, `Connect`, `Disconnect`, `MaybeMint`,
  `Grant`). Each function's contract says what the operation promises. This
  module is the specification.
- `Provider` (rewards_provider.dfy): class `RewardsProvider`. It has the
  provider's own fields (`address`, `points`, `isMinting`, `tokenSymbol`,
  `tokenBalance`) and `ledger` for local storage. Its methods update these
  fields in place, as the source's state setters do. Each method is proved to
  move `View()` exactly as the matching `RewardsModel` function says.
- `RewardsProperties` (rewards_properties.dfy): properties that span several
  operations. These cover the mint thresholds, the session invariant "points
  equal the stored total", sequences of grants, reconnecting, and the worked
  example of a first reward.

Modelling choices:

- The wallet is a parameter of `Connect`, of type `Wallet`. It is either
  `NoWallet`, or it carries the returned accounts, the reported chain id (as
  an integer) and whether a network switch would succeed.
- A mint is a parameter of type `MintOutcome`. It fails before a transaction
  exists, fails after submission, or completes with the refreshed balance
  (`balanceOf` is opaque).
- Notifications (toasts) are returned as a `seq<Notice>` by each step. The
  model records which notice is shown and nothing about how it looks.
- Truthiness follows the code. `!address` holds for a missing address and
  for the empty string, so `IsConnected` needs a non-empty address.
  `const [acc] = accounts` yields no address when the account list is empty.
- The load effect runs only when `address` changes, as React re-runs an
  effect only when its dependency changes. Connecting again as the current
  address does not reload `points`. Disconnecting keeps `points`, because the
  effect returns early when there is no address. The invariant
  `RewardsProperties.Consistent` shows that this cannot expose a stale
  total during a session.
- One might expect a grant to add the amount to the *stored* count. The code
  instead writes the in-memory `points` plus the amount over the stored
  entry, without reading it. The model follows the code: see
  `RewardsModel.Grant` and `RewardsProperties.GrantOverwritesStoredEntry`.
  Under `Consistent` the two readings agree.
  `RewardsProperties.StoredIsGrantedSum` shows that they agree over any mix
  of connects, disconnects and grants.
- `current % 100` is evaluated only when `current > 0`. On positive numbers,
  Dafny's `%` and JavaScript's `%` give the same result.

## Model

| member | source | states |
|---|---|---|
| RewardsModel.ConfigOf | RewardsContext.tsx:26-27 | minting is enabled exactly when the token address variable is set and non-empty; the chain id is the configured one, or 11155111 when unset; the provider's constructor builds its configuration with it |
| RewardsModel.Config.TokenConfigured | RewardsContext.tsx:99 | a token is configured exactly when the token address is a non-empty string (its truthiness) |
| RewardsModel.IsConnected | RewardsContext.tsx:139 | a session exists exactly when the address is neither absent nor the empty string, the truthiness tested by `!address` and `!!address` |
| RewardsModel.MintRule | RewardsContext.tsx:99 | the rule holds exactly for a positive exact multiple of 100 with a token configured, and never below 100 |
| RewardsModel.Initial | RewardsContext.tsx:30-34 | the provider starts with no session, 0 points, `isMinting` false, symbol "FNR", balance "0", and storage as found |
| RewardsModel.Stored | RewardsContext.tsx:41 | the total read for an address is its stored entry, or 0 when the address has none |
| RewardsModel.SavePoints | RewardsContext.tsx:44-49 | saving sets exactly one key to the given value; every other entry keeps its value and no other key appears |
| RewardsModel.Load | RewardsContext.tsx:36-42 | with a session, `points` becomes the stored total for the address; without one, the state is unchanged; no field but `points` ever changes |
| RewardsModel.FirstAccount | RewardsContext.tsx:56 | the session address is the first returned account, and absent exactly when no account was returned |
| RewardsModel.Connect | RewardsContext.tsx:51-70 | no wallet: state unchanged, no switch, only the "MetaMask not found" notice; a switch is requested iff the reported chain differs from the configured one; the address becomes the first account whether or not the switch succeeds; "Wrong network" is shown iff the switch was requested and failed; the ledger, mint flag and token info are untouched; points are reloaded from storage iff the address changed to a connected one |
| RewardsModel.Disconnect | RewardsContext.tsx:72-74 | the session ends (not connected, address absent); points, ledger, mint flag and token info are kept |
| RewardsModel.MaybeMint | RewardsContext.tsx:96-123 | a mint is attempted iff there is a session and the total is positive, a multiple of 100 and a token is configured; otherwise nothing changes and nothing is shown; after an attempt `isMinting` is false whatever the outcome; only a completed mint changes the balance; points and ledger are never touched; the last notice is "Mint failed" exactly when the mint did not complete, and "Mint submitted" is shown exactly when a transaction was created |
| RewardsModel.Grant | RewardsContext.tsx:125-135 | without a session: state unchanged, no mint, only the "connect wallet" notice; with a session as `a`: points become old points plus the amount, `ledger[a]` is set to that same value, every other ledger entry is unchanged, and the first notice reports the amount and new total; a mint is attempted iff connected and the mint rule holds of the new total; the balance changes only after a completed mint; a failed mint rolls nothing back |
| Provider.RewardsProvider.constructor | RewardsContext.tsx:26-34 | a new provider's configuration is `ConfigOf` of the two environment variables, and its state is the initial state over the given storage |
| Provider.RewardsProvider.IsConnected | RewardsContext.tsx:139 | `isConnected` is true exactly when the address is present and non-empty |
| Provider.RewardsProvider.LoadPoints | RewardsContext.tsx:36-42 | the load effect updates the fields as `Load` prescribes |
| Provider.RewardsProvider.SavePoints | RewardsContext.tsx:44-49 | the stored ledger becomes the old ledger with one key overwritten |
| Provider.RewardsProvider.Connect | RewardsContext.tsx:51-70 | the fields, the switch request and the notices are as `Connect` prescribes |
| Provider.RewardsProvider.Disconnect | RewardsContext.tsx:72-74 | only `address` changes, to absent |
| Provider.RewardsProvider.MaybeMint | RewardsContext.tsx:96-123 | the new fields, the mint attempt and the notices are those `MaybeMint` prescribes for the old state, so `isMinting` is false after any attempt and only a completed mint changes `tokenBalance` |
| Provider.RewardsProvider.GrantPoints | RewardsContext.tsx:125-135 | the new fields, the mint attempt and the notices are those `Grant` prescribes for the old state: a refused grant without a session, otherwise `points` and the session's ledger entry set to old `points` plus the amount, with a mint iff the rule holds |
| RewardsProperties.MintRuleIffThreshold | RewardsContext.tsx:99 | the mint rule holds exactly at the totals 100·k for k ≥ 1, and only when a token address is configured |
| RewardsProperties.ConsistencyPreserved | RewardsContext.tsx:36-135 | connect, disconnect, the load effect, grant and mint all keep "during a session, points equal the stored total for the address" |
| RewardsProperties.InitialConsistent | RewardsContext.tsx:30-31 | the initial state satisfies that invariant |
| RewardsProperties.ReconnectRestores | RewardsContext.tsx:37-74 | disconnecting and then connecting as a non-empty account `a` gives a session as `a` with points equal to the stored total for `a` (0 when absent) and the ledger untouched |
| RewardsProperties.GrantIgnoresMintOutcome | RewardsContext.tsx:96-134 | points, ledger and whether a mint is attempted do not depend on how the mint ends: there is no rollback |
| RewardsProperties.GrantsWhileDisconnected | RewardsContext.tsx:125-129 | any sequence of grants without a session leaves the state unchanged, mints nothing and shows the connect notice once per call |
| RewardsProperties.GrantsWhileConnected | RewardsContext.tsx:125-135 | during a session, a sequence of grants adds the sum of the amounts to points and stores that total for the address; it leaves every other ledger entry alone and keeps the session; it mints exactly once per running total that meets the mint rule |
| RewardsProperties.SumOfGrantsSinceFirstConnect | RewardsContext.tsx:37-132 | connecting as an address with no stored entry and then granting leaves points and the stored total equal to the sum of the amounts granted |
| RewardsProperties.GrantOverwritesStoredEntry | RewardsContext.tsx:130-132 | during a session, the entry a grant stores for the address is in-memory points plus the amount, the same whatever the ledger held before: the stored value is overwritten, not incremented |
| RewardsProperties.StoredIsGrantedSum | RewardsContext.tsx:36-135 | over any sequence of connects, disconnects and grants from a consistent state, the invariant is kept and the total stored for any address `a` grows by exactly the amounts granted while the session was `a` |
| RewardsProperties.SumOfGrantsAcrossSessions | RewardsContext.tsx:36-135 | from a fresh provider over storage with no entry for `a`, the stored total for `a` after any sequence of actions is the sum of the amounts granted as `a`, and during a session as `a` the in-memory points equal it |
| RewardsProperties.FirstRewardExample | RewardsContext.tsx:96-135 | connecting as a fresh address on the configured chain and granting 60 then 40 gives 100 points and one mint, at the second grant; granting 5 more gives 105 points and no mint |

## Left out

- The token-info refresh effect (RewardsContext.tsx:77-94) is not modelled. It fetches the symbol and balance over the network after each address change, and falls back silently on failure. The model's `tokenSymbol` and `tokenBalance` therefore change only through a completed mint.
- The contract calls (`symbol`, `balanceOf`, `decimals`, `mint`, `parseUnits`, `tx.wait`) and the ethers provider and signer are foreign library and network code. A mint is reduced to its `MintOutcome`, and the 18-decimal default for a failing `decimals` call is not represented.
- Rejections of the `eth_requestAccounts` or `eth_chainId` requests are not modelled. Such a rejection makes `connect` reject before any state changes.
- The hex parsing and formatting of the chain id are abstracted to integers. So is a `parseInt` result of `NaN`: such a reply is just some chain id that differs from the configured one.
- JSON parsing and serialisation of the storage object are not modelled; storage is a `map<string, int>`. Malformed or non-numeric stored values are not represented, and no other tab or program writes the storage.
- Number arithmetic: JavaScript numbers are floating point, while the model uses unbounded integers for points and amounts. Fractional amounts, precision loss above 2^53 and `NaN` totals are not represented.
- Async interleaving is not modelled: each operation runs to completion. This leaves out concurrent `grantPoints` calls racing on a stale `points`, and the UI seeing `isMinting` true while a mint is pending.
- React rendering, context and memoisation are not modelled. Neither is `useRewards` throwing outside its provider, a framework guard.
- Storage access that throws is not modelled. An example is a quota or security error from `localStorage.setItem` in `savePoints` (RewardsContext.tsx:48). `grantPoints` would then reject after `setPoints(newPts)`, with no notice and no mint, leaving in-memory points ahead of storage and breaking `Consistent`. The model's map cannot fail.
- ConfigOf: takes the chain id as an integer or nothing, so it does not model `Number(...)` giving `NaN` for a non-numeric chain-id variable (RewardsContext.tsx:27). With `NaN` every connect would request a network switch, because no reported chain id equals it.
- How a notification looks (title and description text), and `console.error`, are not modelled.
