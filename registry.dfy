/**
  The account registry of the SocialWallet contract, as values.

  The contract keeps one `SocialAccount` per owner address in its instance
  storage. Here that storage is a `Store`, a map from address to record, and
  every contract entry point is a function from the store before the call to
  a `Transition`: the store after the call and what the caller observes.
  The class in module Wallet updates its store field step by step and is
  proved to follow these functions.
*/
module Registry {

  /** Ledger timestamps are unsigned 64-bit seconds. */
  newtype u64 = x: int | 0 <= x < 0x1_0000_0000_0000_0000

  /** An account address on the ledger (its strkey); only equality is used. */
  datatype Address = Address(strkey: string)

  /** One account record: `authMethods` maps a method type ("google") to an
      identifier ("user@gmail.com"). */
  datatype SocialAccount = SocialAccount(
    owner: Address,
    authMethods: map<string, string>,
    isInitialized: bool,
    createdAt: u64)

  /** The contract's instance storage: records keyed by owner address. */
  type Store = map<Address, SocialAccount>

  /** What a caller sees: a returned boolean, or an abort raised by
      `require_auth` for the principal that did not authorize the call. */
  datatype Outcome = Returned(ok: bool) | Aborted(principal: Address)

  /** The store after a call, and the call's outcome. */
  datatype Transition = Transition(store: Store, outcome: Outcome) {
    /** The call returned true, the only outcome that writes. */
    predicate Committed() {
      outcome == Returned(true)
    }
  }

  /** The store invariant: each record sits under its own owner's key and is
      marked initialized. */
  ghost predicate WellFormed(s: Store) {
    forall o :: o in s ==> s[o].owner == o && s[o].isInitialized
  }

  /** Owner, initialization flag and creation time agree: only the method map
      may differ. */
  predicate SameHeader(a: SocialAccount, b: SocialAccount) {
    a.owner == b.owner && a.isInitialized == b.isInitialized && a.createdAt == b.createdAt
  }

  // ---------------------------------------------------------------------
  // Reads
  // ---------------------------------------------------------------------

  /** get_account: the stored record, or none. */
  function GetAccount(s: Store, owner: Address): (r: Option<SocialAccount>)
    ensures r.Some? <==> owner in s
    ensures r.Some? ==> r.value == s[owner]
    ensures WellFormed(s) && r.Some? ==> r.value.owner == owner && r.value.isInitialized
  {
    if owner in s then Some(s[owner]) else None
  }

  /** has_auth_method: false both for a missing account and a missing method. */
  function HasAuthMethod(s: Store, owner: Address, methodType: string): (b: bool)
    ensures b <==> owner in s && methodType in s[owner].authMethods
    ensures owner !in s ==> !b
  {
    match GetAccount(s, owner)
    case Some(account) => methodType in account.authMethods
    case None => false
  }

  /** The method types of an account, empty when there is no account. */
  function AuthMethodTypes(s: Store, owner: Address): set<string> {
    match GetAccount(s, owner)
    case Some(account) => account.authMethods.Keys
    case None => {}
  }

  /** No method type is listed twice. */
  predicate Distinct(xs: seq<string>) {
    forall i, j :: 0 <= i < j < |xs| ==> xs[i] != xs[j]
  }

  /** get_auth_methods: walks the account's method map and appends each key
      once. The order is the host map's and is not modelled: the result is
      some duplicate-free listing of exactly the method types. */
  method GetAuthMethods(s: Store, owner: Address) returns (methods: seq<string>)
    ensures forall t :: t in methods <==> owner in s && t in s[owner].authMethods
    ensures Distinct(methods)
    ensures |methods| == |AuthMethodTypes(s, owner)|
    ensures owner !in s ==> methods == []
  {
    methods := [];
    match GetAccount(s, owner) {
      case None =>
      case Some(account) =>
        var keys := account.authMethods.Keys;
        var remaining := keys;
        while remaining != {}
          invariant remaining <= keys
          invariant forall t :: t in methods <==> t in keys && t !in remaining
          invariant Distinct(methods)
          invariant |methods| + |remaining| == |keys|
          decreases remaining
        {
          var key :| key in remaining;
          methods := methods + [key];
          remaining := remaining - {key};
        }
    }
  }

  // ---------------------------------------------------------------------
  // Writes
  // ---------------------------------------------------------------------

  /** initialize: creates the record on first use of `owner`, asks for no
      authorization, and is a reported no-op on every later use. */
  function Initialize(s: Store, owner: Address, methodType: string, identifier: string, now: u64): (t: Transition)
    ensures t.outcome == Returned(owner !in s)
    ensures !t.Committed() ==> t.store == s
    ensures t.Committed() ==>
      && t.store.Keys == s.Keys + {owner}
      && t.store[owner].owner == owner
      && t.store[owner].authMethods == map[methodType := identifier]
      && t.store[owner].isInitialized
      && t.store[owner].createdAt == now
    ensures forall o :: o in s ==> o in t.store && t.store[o] == s[o]
  {
    if owner in s then
      Transition(s, Returned(false))
    else
      var account := SocialAccount(owner, map[methodType := identifier], true, now);
      Transition(s[owner := account], Returned(true))
  }

  /** add_auth_method: sets (inserting or overwriting) one method of an
      existing account; only the record at `owner` changes. */
  function AddAuthMethod(s: Store, authorized: set<Address>, owner: Address, methodType: string, identifier: string): (t: Transition)
    ensures owner !in authorized ==> t.outcome == Aborted(owner)
    ensures owner in authorized ==> t.outcome == Returned(owner in s)
    ensures !t.Committed() ==> t.store == s
    ensures t.store.Keys == s.Keys
    ensures forall o :: o in s && o != owner ==> t.store[o] == s[o]
    ensures t.Committed() ==>
      && SameHeader(t.store[owner], s[owner])
      && t.store[owner].authMethods.Keys == s[owner].authMethods.Keys + {methodType}
      && t.store[owner].authMethods[methodType] == identifier
      && forall m :: m in s[owner].authMethods && m != methodType ==>
           t.store[owner].authMethods[m] == s[owner].authMethods[m]
  {
    if owner !in authorized then
      Transition(s, Aborted(owner))
    else
      match GetAccount(s, owner)
      case None => Transition(s, Returned(false))
      case Some(account) =>
        var updated := account.(authMethods := account.authMethods[methodType := identifier]);
        Transition(s[owner := updated], Returned(true))
  }

  /** remove_auth_method: deletes one present method of an existing account;
      a missing account and a missing method both report false. */
  function RemoveAuthMethod(s: Store, authorized: set<Address>, owner: Address, methodType: string): (t: Transition)
    ensures owner !in authorized ==> t.outcome == Aborted(owner)
    ensures owner in authorized ==> t.outcome == Returned(HasAuthMethod(s, owner, methodType))
    ensures !t.Committed() ==> t.store == s
    ensures t.store.Keys == s.Keys
    ensures forall o :: o in s && o != owner ==> t.store[o] == s[o]
    ensures t.Committed() ==>
      && SameHeader(t.store[owner], s[owner])
      && t.store[owner].authMethods.Keys == s[owner].authMethods.Keys - {methodType}
      && forall m :: m in t.store[owner].authMethods ==>
           t.store[owner].authMethods[m] == s[owner].authMethods[m]
  {
    if owner !in authorized then
      Transition(s, Aborted(owner))
    else
      match GetAccount(s, owner)
      case None => Transition(s, Returned(false))
      case Some(account) =>
        if methodType in account.authMethods then
          var updated := account.(authMethods := account.authMethods - {methodType});
          Transition(s[owner := updated], Returned(true))
        else
          Transition(s, Returned(false))
  }

  /** transfer_ownership: moves the record from `currentOwner` to `newOwner`
      and rewrites its owner field; whatever was stored at `newOwner` is
      overwritten. */
  function TransferOwnership(s: Store, authorized: set<Address>, currentOwner: Address, newOwner: Address): (t: Transition)
    ensures currentOwner !in authorized ==> t.outcome == Aborted(currentOwner)
    ensures currentOwner in authorized ==> t.outcome == Returned(currentOwner in s)
    ensures !t.Committed() ==> t.store == s
    ensures t.Committed() ==>
      && t.store.Keys == s.Keys - {currentOwner} + {newOwner}
      && t.store[newOwner] == s[currentOwner].(owner := newOwner)
    ensures forall o :: o in s && o != currentOwner && o != newOwner ==> o in t.store && t.store[o] == s[o]
  {
    if currentOwner !in authorized then
      Transition(s, Aborted(currentOwner))
    else
      match GetAccount(s, currentOwner)
      case None => Transition(s, Returned(false))
      case Some(account) =>
        var removed := s - {currentOwner};
        Transition(removed[newOwner := account.(owner := newOwner)], Returned(true))
  }

  // ---------------------------------------------------------------------
  // Sequences of calls
  // ---------------------------------------------------------------------

  /** A state-changing invocation of the contract with its arguments; the
      authorized set stands for the signatures the host holds for it. */
  datatype Call =
    | InitializeCall(owner: Address, methodType: string, identifier: string, now: u64)
    | AddAuthMethodCall(authorized: set<Address>, owner: Address, methodType: string, identifier: string)
    | RemoveAuthMethodCall(authorized: set<Address>, owner: Address, methodType: string)
    | TransferOwnershipCall(authorized: set<Address>, currentOwner: Address, newOwner: Address)

  function Apply(s: Store, c: Call): Transition {
    match c
    case InitializeCall(o, m, i, now) => Initialize(s, o, m, i, now)
    case AddAuthMethodCall(a, o, m, i) => AddAuthMethod(s, a, o, m, i)
    case RemoveAuthMethodCall(a, o, m) => RemoveAuthMethod(s, a, o, m)
    case TransferOwnershipCall(a, from, to) => TransferOwnership(s, a, from, to)
  }

  /** The store after executing the calls in order, each as its own
      transaction. */
  function Run(s: Store, calls: seq<Call>): Store
    decreases |calls|
  {
    if calls == [] then s else Run(Apply(s, calls[0]).store, calls[1..])
  }

  datatype Option<T> = None | Some(value: T)
}
