/**
  The SocialWallet contract with its instance storage as a mutable field.
  Each state-changing entry point reads and writes `store` the way the
  contract does and is proved to produce exactly the transition that module
  Registry defines for it, keeping the store invariant.
*/
module Wallet {
  import opened Registry

  class SocialWallet {
    /** The contract's instance storage. */
    var store: Store

    ghost predicate Valid()
      reads this
    {
      WellFormed(store)
    }

    /** A freshly registered contract holds no accounts. */
    constructor ()
      ensures Valid() && store == map[]
    {
      store := map[];
    }

    /** initialize: `now` is the ledger timestamp of the invocation. */
    method Initialize(owner: Address, methodType: string, identifier: string, now: u64) returns (ok: bool)
      requires Valid()
      modifies this
      ensures Valid()
      ensures Registry.Initialize(old(store), owner, methodType, identifier, now) == Transition(store, Returned(ok))
    {
      if owner in store {
        return false;
      }
      var authMethods := map[];
      authMethods := authMethods[methodType := identifier];
      var account := SocialAccount(owner, authMethods, true, now);
      store := store[owner := account];
      return true;
    }

    /** add_auth_method: `authorized` holds the principals that signed the
        invocation; the owner's authorization is checked before anything
        is read. */
    method AddAuthMethod(authorized: set<Address>, owner: Address, methodType: string, identifier: string)
      returns (r: Outcome)
      requires Valid()
      modifies this
      ensures Valid()
      ensures Registry.AddAuthMethod(old(store), authorized, owner, methodType, identifier) == Transition(store, r)
    {
      if owner !in authorized {
        return Aborted(owner);
      }
      if owner in store {
        var account := store[owner];
        account := account.(authMethods := account.authMethods[methodType := identifier]);
        store := store[owner := account];
        return Returned(true);
      }
      return Returned(false);
    }

    /** remove_auth_method. */
    method RemoveAuthMethod(authorized: set<Address>, owner: Address, methodType: string) returns (r: Outcome)
      requires Valid()
      modifies this
      ensures Valid()
      ensures Registry.RemoveAuthMethod(old(store), authorized, owner, methodType) == Transition(store, r)
    {
      if owner !in authorized {
        return Aborted(owner);
      }
      if owner in store {
        var account := store[owner];
        if methodType in account.authMethods {
          account := account.(authMethods := account.authMethods - {methodType});
          store := store[owner := account];
          return Returned(true);
        }
      }
      return Returned(false);
    }

    /** transfer_ownership: removes the old key first, then writes the
        record, owner rewritten, under the new key. */
    method TransferOwnership(authorized: set<Address>, currentOwner: Address, newOwner: Address) returns (r: Outcome)
      requires Valid()
      modifies this
      ensures Valid()
      ensures Registry.TransferOwnership(old(store), authorized, currentOwner, newOwner) == Transition(store, r)
    {
      if currentOwner !in authorized {
        return Aborted(currentOwner);
      }
      if currentOwner in store {
        var account := store[currentOwner];
        store := store - {currentOwner};
        account := account.(owner := newOwner);
        store := store[newOwner := account];
        return Returned(true);
      }
      return Returned(false);
    }
  }

  // -----------------------------------------------------------------------
  // The contract's test scenarios, as clients of the specifications above
  // -----------------------------------------------------------------------

  method InitializeAccountScenario(owner: Address, now: u64) {
    var w := new SocialWallet();
    var ok := w.Initialize(owner, "google", "user@gmail.com", now);
    assert ok;
    var account := GetAccount(w.store, owner);
    assert account.Some? && account.value.owner == owner && account.value.isInitialized;
    assert account.value.authMethods == map["google" := "user@gmail.com"];
  }

  method DuplicateInitializationScenario(owner: Address, now: u64, later: u64) {
    var w := new SocialWallet();
    var first := w.Initialize(owner, "google", "user@gmail.com", now);
    var second := w.Initialize(owner, "facebook", "user@facebook.com", later);
    assert first && !second;
    assert w.store[owner].authMethods == map["google" := "user@gmail.com"];
    assert w.store[owner].createdAt == now;
  }

  method AddAuthMethodScenario(owner: Address, now: u64) {
    var w := new SocialWallet();
    var _ := w.Initialize(owner, "google", "user@gmail.com", now);
    var r := w.AddAuthMethod({owner}, owner, "facebook", "user@facebook.com");
    assert r == Returned(true);
    assert HasAuthMethod(w.store, owner, "google");
    assert HasAuthMethod(w.store, owner, "facebook");
  }

  method GetAuthMethodsScenario(owner: Address, now: u64) {
    var w := new SocialWallet();
    var _ := w.Initialize(owner, "google", "user@gmail.com", now);
    var _ := w.AddAuthMethod({owner}, owner, "facebook", "user@facebook.com");
    assert w.store[owner].authMethods.Keys == {"google", "facebook"};
    var _ := w.AddAuthMethod({owner}, owner, "phone", "+1234567890");
    var types := {"google", "facebook", "phone"};
    assert w.store[owner].authMethods.Keys == types;
    assert |types| == 3 by {
      assert types == {"google", "facebook"} + {"phone"};
    }
    var methods := GetAuthMethods(w.store, owner);
    assert |methods| == 3;
  }

  method RemoveAuthMethodScenario(owner: Address, now: u64) {
    var w := new SocialWallet();
    var _ := w.Initialize(owner, "google", "user@gmail.com", now);
    var _ := w.AddAuthMethod({owner}, owner, "facebook", "user@facebook.com");
    var r := w.RemoveAuthMethod({owner}, owner, "facebook");
    assert r == Returned(true);
    assert !HasAuthMethod(w.store, owner, "facebook");
    assert HasAuthMethod(w.store, owner, "google");
  }

  /** Without the owner's signature a mutating call aborts and the store is
      as before. */
  method UnauthorizedScenario(owner: Address, stranger: Address, now: u64)
    requires owner != stranger
  {
    var w := new SocialWallet();
    var _ := w.Initialize(owner, "google", "user@gmail.com", now);
    ghost var before := w.store;
    var r := w.AddAuthMethod({stranger}, owner, "phone", "+1555");
    assert r == Aborted(owner) && w.store == before;
    r := w.RemoveAuthMethod({stranger}, owner, "google");
    assert r == Aborted(owner) && w.store == before;
    r := w.TransferOwnership({stranger}, owner, stranger);
    assert r == Aborted(owner) && w.store == before;
  }
}
