# SocialWallet account registry, in Dafny

This is a model of the Soroban smart contract `SocialWallet`. The contract keeps
one `SocialAccount` record per owner `Address` in its instance storage. A record
holds:

- the owner;
- a map from authentication method type to identifier (for example
  `"google" -> "user@gmail.com"`);
- an initialized flag;
- the ledger timestamp of its creation.

The contract has seven entry points:

- `initialize` creates a record once and needs no signature.
- `add_auth_method` and `remove_auth_method` change the method map. They need
  the owner's signature.
- `transfer_ownership` moves the record to a new address. It needs the current
  owner's signature.
- `get_account`, `has_auth_method` and `get_auth_methods` are reads.

## Files

- `registry.dfy`, module `Registry`: the record and store types, and the read
  entry points as functions over the store. `get_auth_methods` is a method
  whose loop appends each key once. Each writing entry point is a function
  from the store before the call to a `Transition`: the store after the call
  and the outcome. The module also has `Apply` and `Run`, which execute a
  sequence of calls.
- `wallet.dfy`, module `Wallet`: class `SocialWallet`. Its `store` field is the
  instance storage. Its methods do the contract's reads and writes in the
  contract's order. Each method is proved to give exactly the `Registry`
  transition and to keep the store invariant `WellFormed`. The file ends with
  the scenarios of the contract's `test.rs` (initialize, duplicate initialize,
  add, list with three methods, remove) and a scenario with a missing
  signature. Each is written as a client method whose assertions follow from
  the contracts alone.
- `properties.dfy`, module `Properties`: lemmas about single calls and about
  any sequence of calls.

Authorization is a parameter. `authorized` is the set of principals that
signed the invocation. A call whose principal is missing from it gives
`Aborted(principal)` and leaves the store unchanged, because the host rolls the
transaction back. `Aborted` is a different outcome from `Returned(false)`.

## Model

Paths are relative to the repository root. `lib.rs` stands for
`Stellar-Account-Abstraction-SDK/contracts/social-account/contracts/social-wallet/src/lib.rs`.

| member | source | states |
|---|---|---|
| Registry.GetAccount | Stellar-Account-Abstraction-SDK/contracts/social-account/contracts/social-wallet/src/lib.rs:63-65 | returns the stored record exactly when the owner has one, and none otherwise; in a well-formed store the record's owner is the key and it is initialized |
| Registry.HasAuthMethod | Stellar-Account-Abstraction-SDK/contracts/social-account/contracts/social-wallet/src/lib.rs:68-73 | true iff a record exists at the owner and the method type is a key of its method map; false for a missing account |
| Registry.GetAuthMethods | Stellar-Account-Abstraction-SDK/contracts/social-account/contracts/social-wallet/src/lib.rs:76-85 | the result holds exactly the account's method types, each once, so its length is the number of methods; empty when there is no account |
| Registry.Initialize | Stellar-Account-Abstraction-SDK/contracts/social-account/contracts/social-wallet/src/lib.rs:19-42 | returns true iff the owner had no record and needs no authorization; on true it adds exactly the owner's key, holding owner = key, methods = {type: identifier}, initialized, created at `now`; on false the store is unchanged; existing records are never touched |
| Registry.AddAuthMethod | Stellar-Account-Abstraction-SDK/contracts/social-account/contracts/social-wallet/src/lib.rs:45-60 | aborts without the owner's signature; otherwise returns whether the account exists; on true the method type maps to the new identifier, overwriting any old one, while other methods, owner, flag, creation time and all other keys stay the same; otherwise nothing changes |
| Registry.RemoveAuthMethod | Stellar-Account-Abstraction-SDK/contracts/social-account/contracts/social-wallet/src/lib.rs:88-103 | aborts without the owner's signature; otherwise returns whether the account exists and has the method type; on true exactly that entry is deleted and all else is unchanged; on false nothing changes |
| Registry.TransferOwnership | Stellar-Account-Abstraction-SDK/contracts/social-account/contracts/social-wallet/src/lib.rs:106-123 | aborts without the current owner's signature; otherwise returns whether the source has a record; on true the source key is gone and the new key holds the old record with owner rewritten, replacing any record there; keys other than the two are unchanged; on false nothing changes |
| Wallet.SocialWallet.Initialize | Stellar-Account-Abstraction-SDK/contracts/social-account/contracts/social-wallet/src/lib.rs:19-42 | the stepwise has/set on the storage field yields exactly the `Registry.Initialize` transition and keeps the store invariant |
| Wallet.SocialWallet.AddAuthMethod | Stellar-Account-Abstraction-SDK/contracts/social-account/contracts/social-wallet/src/lib.rs:45-60 | the authorization check and then get/set yield exactly the `Registry.AddAuthMethod` transition and keep the store invariant |
| Wallet.SocialWallet.RemoveAuthMethod | Stellar-Account-Abstraction-SDK/contracts/social-account/contracts/social-wallet/src/lib.rs:88-103 | the authorization check and then get/contains/remove/set yield exactly the `Registry.RemoveAuthMethod` transition and keep the store invariant |
| Wallet.SocialWallet.TransferOwnership | Stellar-Account-Abstraction-SDK/contracts/social-account/contracts/social-wallet/src/lib.rs:106-123 | the authorization check, then removing the old key, rewriting the owner and setting the new key, yield exactly the `Registry.TransferOwnership` transition and keep the store invariant |
| Properties.InitializeTwice | Stellar-Account-Abstraction-SDK/contracts/social-account/contracts/social-wallet/src/lib.rs:26-28 | initializing one owner twice returns true then false, and the store after both calls is the store after the first, holding the first call's record |
| Properties.AddThenHas | Stellar-Account-Abstraction-SDK/contracts/social-account/contracts/social-wallet/src/lib.rs:54-57 | after a committed add, has_auth_method is true for the added type and its identifier is the new one; the answer for every other (owner, type) pair is unchanged |
| Properties.RemoveThenHasNot | Stellar-Account-Abstraction-SDK/contracts/social-account/contracts/social-wallet/src/lib.rs:95-99 | after a committed remove, the account still exists and has_auth_method is false for the removed type; the answer for every other (owner, type) pair is unchanged |
| Properties.AddMethodCount | Stellar-Account-Abstraction-SDK/contracts/social-account/contracts/social-wallet/src/lib.rs:55 | a committed add increases the number of method types by one for a new type and leaves it unchanged for an overwrite |
| Properties.RemoveMethodCount | Stellar-Account-Abstraction-SDK/contracts/social-account/contracts/social-wallet/src/lib.rs:96-97 | a committed remove decreases the number of method types by exactly one |
| Properties.RemoveLastMethod | Stellar-Account-Abstraction-SDK/contracts/social-account/contracts/social-wallet/src/lib.rs:96-99 | in any store, an authorized removal of an account's only method is committed and leaves the account in place with an empty method map |
| Properties.TransferFromMissing | Stellar-Account-Abstraction-SDK/contracts/social-account/contracts/social-wallet/src/lib.rs:113-122 | transferring from an address without a record changes nothing, including the record at the destination, and returns false when authorized |
| Properties.TransferOverwrites | Stellar-Account-Abstraction-SDK/contracts/social-account/contracts/social-wallet/src/lib.rs:115-119 | in any store, transferring onto an existing account replaces it: the source key is gone, the destination holds the moved methods and creation time under the new owner, and the store has one record fewer |
| Properties.TransferToSelf | Stellar-Account-Abstraction-SDK/contracts/social-account/contracts/social-wallet/src/lib.rs:113-120 | in a well-formed store, transferring an account to its own owner returns true and leaves the store exactly as it was |
| Properties.UnauthorizedAborts | Stellar-Account-Abstraction-SDK/contracts/social-account/contracts/social-wallet/src/lib.rs:50-52 | a call without its principal's signature (the owner for add and remove at lines 52 and 93, the current owner for transfer at line 111) aborts with that principal and leaves the store as it was; initialize never aborts |
| Properties.ApplyPreservesWellFormed | Stellar-Account-Abstraction-SDK/contracts/social-account/contracts/social-wallet/src/lib.rs:33-40 | every call keeps each record under its own owner's key and initialized |
| Properties.RunPreservesWellFormed | Stellar-Account-Abstraction-SDK/contracts/social-account/contracts/social-wallet/src/lib.rs:118-119 | over any sequence of calls, every record stays stored under its own owner's key and stays initialized |
| Properties.ApplyKeepsCreationTimes | Stellar-Account-Abstraction-SDK/contracts/social-account/contracts/social-wallet/src/lib.rs:37 | no call creates a creation time other than an initialize call's timestamp |
| Properties.RunKeepsCreationTimes | Stellar-Account-Abstraction-SDK/contracts/social-account/contracts/social-wallet/src/lib.rs:33-38 | over any sequence of calls, every creation time in the final store was already in the initial store or is the timestamp of one of the initialize calls |
| Properties.ApplyAccountCount | Stellar-Account-Abstraction-SDK/contracts/social-account/contracts/social-wallet/src/lib.rs:113-120 | only initialize adds an account: add and remove keep exactly the set of accounts, a transfer adds at most the new owner's key and never increases their number |
| Properties.RunAccountCount | Stellar-Account-Abstraction-SDK/contracts/social-account/contracts/social-wallet/src/lib.rs:26-40 | over any sequence of calls, the number of accounts is at most the initial number plus the number of initialize calls |

## Left out

- Soroban host machinery is not modelled. This covers `Env`, contract
  registration, value serialization and storage lifetimes. Instance storage is
  the `store` field, or a `Store` value.
- The ledger clock is not modelled. `env.ledger().timestamp()` is the `now`
  parameter of `initialize`.
- `require_auth` is not modelled as a host call. It is the `authorized` set
  together with the `Aborted` outcome. Signature verification is out of scope.
- Registry.GetAuthMethods: does not state the order of the returned method
  types, which is the host map's key order. It states the contents, that no
  type repeats, and the length.
- The read entry points are functions over the store value, for example
  `Registry.HasAuthMethod(w.store, o, t)`. They are not members of the class.
  Reads never change state.
- Registry.RemoveAuthMethod: nothing protects an account's last method.
  `remove_auth_method` deletes it like any other and leaves an empty method
  map, although `initialize` always creates a record with one method
  (`Properties.RemoveLastMethod`).
- The TypeScript SDK, the demo web app and the Telegram bots are not part of
  this model. They are network, browser, UI and file I/O code around the
  contract.
