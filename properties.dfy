/**
  Properties of the SocialWallet registry: what one call does as seen
  through the read entry points, what a call without the required signature
  does, and invariants that hold over any sequence of calls.
*/
module Properties {
  import opened Registry

  // -----------------------------------------------------------------------
  // initialize
  // -----------------------------------------------------------------------

  /** Two initializations of one owner: the first creates the record and
      reports true, the second reports false and the first one's data
      survives unchanged. */
  lemma InitializeTwice(s: Store, owner: Address, type1: string, id1: string, now1: u64,
                        type2: string, id2: string, now2: u64)
    requires owner !in s
    ensures var first := Initialize(s, owner, type1, id1, now1);
            var second := Initialize(first.store, owner, type2, id2, now2);
            && first.outcome == Returned(true)
            && second.outcome == Returned(false)
            && second.store == first.store
            && GetAccount(second.store, owner) == Some(SocialAccount(owner, map[type1 := id1], true, now1))
  {
  }

  // -----------------------------------------------------------------------
  // add_auth_method and remove_auth_method, observed through the reads
  // -----------------------------------------------------------------------

  /** After a committed add, the method is present, its identifier is the new
      one, and every other (owner, method type) answer is unchanged. */
  lemma AddThenHas(s: Store, authorized: set<Address>, owner: Address, methodType: string, identifier: string,
                   other: Address, otherType: string)
    requires (other, otherType) != (owner, methodType)
    ensures var t := AddAuthMethod(s, authorized, owner, methodType, identifier);
            && (t.Committed() ==> HasAuthMethod(t.store, owner, methodType))
            && (t.Committed() ==> t.store[owner].authMethods[methodType] == identifier)
            && HasAuthMethod(t.store, other, otherType) == HasAuthMethod(s, other, otherType)
  {
  }

  /** After a committed remove the method is gone, and every other
      (owner, method type) answer is unchanged. */
  lemma RemoveThenHasNot(s: Store, authorized: set<Address>, owner: Address, methodType: string,
                         other: Address, otherType: string)
    requires (other, otherType) != (owner, methodType)
    ensures var t := RemoveAuthMethod(s, authorized, owner, methodType);
            && (t.Committed() ==> !HasAuthMethod(t.store, owner, methodType) && owner in t.store)
            && HasAuthMethod(t.store, other, otherType) == HasAuthMethod(s, other, otherType)
  {
  }

  /** The number of listed method types grows by one when an add introduces
      a new type, and is unchanged when it overwrites one. */
  lemma AddMethodCount(s: Store, authorized: set<Address>, owner: Address,
                      methodType: string, identifier: string)
    ensures var t := AddAuthMethod(s, authorized, owner, methodType, identifier);
            t.Committed() ==>
              |AuthMethodTypes(t.store, owner)| ==
                |AuthMethodTypes(s, owner)| + (if methodType in AuthMethodTypes(s, owner) then 0 else 1)
  {
    var t := AddAuthMethod(s, authorized, owner, methodType, identifier);
    if t.Committed() {
      var before := AuthMethodTypes(s, owner);
      assert AuthMethodTypes(t.store, owner) == before + {methodType};
      if methodType !in before {
        assert |before + {methodType}| == |before| + 1;
      } else {
        assert before + {methodType} == before;
      }
    }
  }

  /** A committed remove lists exactly one method type fewer. */
  lemma RemoveMethodCount(s: Store, authorized: set<Address>, owner: Address, methodType: string)
    ensures var t := RemoveAuthMethod(s, authorized, owner, methodType);
            t.Committed() ==> |AuthMethodTypes(t.store, owner)| == |AuthMethodTypes(s, owner)| - 1
  {
    var t := RemoveAuthMethod(s, authorized, owner, methodType);
    if t.Committed() {
      var before := AuthMethodTypes(s, owner);
      assert methodType in before;
      assert AuthMethodTypes(t.store, owner) == before - {methodType};
    }
  }

  /** Removal may take an account down to no methods at all: nothing keeps
      the last one. */
  lemma RemoveLastMethod(s: Store, authorized: set<Address>, owner: Address, methodType: string)
    requires owner in authorized && owner in s && s[owner].authMethods.Keys == {methodType}
    ensures var t := RemoveAuthMethod(s, authorized, owner, methodType);
            t.Committed() && owner in t.store && t.store[owner].authMethods == map[]
  {
    var t := RemoveAuthMethod(s, authorized, owner, methodType);
    assert t.store[owner].authMethods.Keys == {};
  }

  // -----------------------------------------------------------------------
  // transfer_ownership
  // -----------------------------------------------------------------------

  /** Without a record at the source nothing changes, including any record
      at the destination. */
  lemma TransferFromMissing(s: Store, authorized: set<Address>, currentOwner: Address, newOwner: Address)
    requires currentOwner !in s
    ensures var t := TransferOwnership(s, authorized, currentOwner, newOwner);
            && t.store == s
            && (currentOwner in authorized ==> t.outcome == Returned(false))
            && GetAccount(t.store, newOwner) == GetAccount(s, newOwner)
  {
  }

  /** Transferring onto an address that already has a record replaces that
      record with the moved one; the source key is gone and the creation
      time travels with the record. */
  lemma TransferOverwrites(s: Store, authorized: set<Address>, currentOwner: Address, newOwner: Address)
    requires currentOwner in authorized && currentOwner in s && newOwner in s && currentOwner != newOwner
    ensures var t := TransferOwnership(s, authorized, currentOwner, newOwner);
            && t.outcome == Returned(true)
            && currentOwner !in t.store
            && t.store[newOwner].owner == newOwner
            && t.store[newOwner].authMethods == s[currentOwner].authMethods
            && t.store[newOwner].createdAt == s[currentOwner].createdAt
            && |t.store| == |s| - 1
  {
    var t := TransferOwnership(s, authorized, currentOwner, newOwner);
    assert t.store.Keys == s.Keys - {currentOwner};
  }

  /** Transferring an account to its own owner leaves the store as it was. */
  lemma TransferToSelf(s: Store, authorized: set<Address>, owner: Address)
    requires WellFormed(s)
    requires owner in authorized && owner in s
    ensures var t := TransferOwnership(s, authorized, owner, owner);
            t.outcome == Returned(true) && t.store == s
  {
    var t := TransferOwnership(s, authorized, owner, owner);
    assert s[owner].(owner := owner) == s[owner];
    assert t.store.Keys == s.Keys;
  }

  // -----------------------------------------------------------------------
  // Authorization
  // -----------------------------------------------------------------------

  /** The principal whose signature a call needs; initialize needs none. */
  function Principal(c: Call): Option<Address> {
    match c
    case InitializeCall(_, _, _, _) => None
    case AddAuthMethodCall(_, o, _, _) => Some(o)
    case RemoveAuthMethodCall(_, o, _) => Some(o)
    case TransferOwnershipCall(_, from, _) => Some(from)
  }

  /** A call that lacks its principal's signature aborts with that principal
      and the store is exactly as before; initialize never aborts. */
  lemma UnauthorizedAborts(s: Store, c: Call)
    ensures Principal(c).None? ==> Apply(s, c).outcome.Returned?
    ensures Principal(c).Some? && Principal(c).value !in c.authorized ==>
              Apply(s, c) == Transition(s, Aborted(Principal(c).value))
  {
  }

  // -----------------------------------------------------------------------
  // Invariants over sequences of calls
  // -----------------------------------------------------------------------

  /** Every call keeps each record under its own owner's key and
      initialized. */
  lemma ApplyPreservesWellFormed(s: Store, c: Call)
    requires WellFormed(s)
    ensures WellFormed(Apply(s, c).store)
  {
  }

  lemma {:induction false} RunPreservesWellFormed(s: Store, calls: seq<Call>)
    requires WellFormed(s)
    ensures WellFormed(Run(s, calls))
    decreases |calls|
  {
    if calls != [] {
      ApplyPreservesWellFormed(s, calls[0]);
      RunPreservesWellFormed(Apply(s, calls[0]).store, calls[1..]);
    }
  }

  /** The creation times present in a store. */
  function CreationTimes(s: Store): set<u64> {
    set o | o in s :: s[o].createdAt
  }

  /** The timestamps of the initialize calls among `calls`. */
  function InitializeTimes(calls: seq<Call>): set<u64> {
    if calls == [] then {}
    else (if calls[0].InitializeCall? then {calls[0].now} else {}) + InitializeTimes(calls[1..])
  }

  /** No call invents a creation time: a record's creation time is the one
      it was stored with, or the timestamp of the initialize that made it. */
  lemma ApplyKeepsCreationTimes(s: Store, c: Call)
    ensures CreationTimes(Apply(s, c).store) <= CreationTimes(s) + InitializeTimes([c])
  {
    var t := Apply(s, c);
    assert InitializeTimes([c]) == if c.InitializeCall? then {c.now} else {} by {
      assert [c][1..] == [];
    }
    forall x | x in CreationTimes(t.store)
      ensures x in CreationTimes(s) + InitializeTimes([c])
    {
      var o :| o in t.store && t.store[o].createdAt == x;
      if o in s && t.store[o] == s[o] {
        assert x in CreationTimes(s);
      } else if c.TransferOwnershipCall? {
        assert s[c.currentOwner].createdAt == x;
      }
    }
  }

  /** Over any sequence of calls, every creation time in the final store
      was already in the initial store or was the timestamp of one of the
      initialize calls. */
  lemma {:induction false} RunKeepsCreationTimes(s: Store, calls: seq<Call>)
    ensures CreationTimes(Run(s, calls)) <= CreationTimes(s) + InitializeTimes(calls)
    decreases |calls|
  {
    if calls != [] {
      var next := Apply(s, calls[0]).store;
      ApplyKeepsCreationTimes(s, calls[0]);
      RunKeepsCreationTimes(next, calls[1..]);
      assert InitializeTimes(calls) == InitializeTimes([calls[0]]) + InitializeTimes(calls[1..]) by {
        assert [calls[0]][1..] == [];
      }
    }
  }

  /** The number of initialize calls among `calls`. */
  function InitializeCount(calls: seq<Call>): nat {
    if calls == [] then 0
    else (if calls[0].InitializeCall? then 1 else 0) + InitializeCount(calls[1..])
  }

  /** Only initialize adds an account: add and remove keep the set of
      accounts, and a transfer never grows it. */
  lemma ApplyAccountCount(s: Store, c: Call)
    ensures |Apply(s, c).store| <= |s| + (if c.InitializeCall? then 1 else 0)
    ensures c.AddAuthMethodCall? || c.RemoveAuthMethodCall? ==> Apply(s, c).store.Keys == s.Keys
    ensures c.TransferOwnershipCall? ==> Apply(s, c).store.Keys <= s.Keys + {c.newOwner}
  {
    var t := Apply(s, c);
    if c.TransferOwnershipCall? && t.Committed() {
      var removed := s - {c.currentOwner};
      assert removed.Keys == s.Keys - {c.currentOwner};
      assert |removed| == |s| - 1;
    } else if !c.InitializeCall? {
      assert t.store.Keys == s.Keys;
    }
  }

  lemma {:induction false} RunAccountCount(s: Store, calls: seq<Call>)
    ensures |Run(s, calls)| <= |s| + InitializeCount(calls)
    decreases |calls|
  {
    if calls != [] {
      ApplyAccountCount(s, calls[0]);
      RunAccountCount(Apply(s, calls[0]).store, calls[1..]);
    }
  }
}
