/** Who may subscribe to which event instance, with the two reverse indexes that disconnects rely on. */
module EventScope {

  // Connections are numbered from 1; 0 is no connection.
  datatype Key = Key(provider: nat, endpoint: nat, scope: nat)

  function Of(index: map<nat, set<Key>>, c: nat): set<Key> { if c in index then index[c] else {} }

  function ProvidedBy(owner: map<Key, nat>, c: nat): set<Key> { set k | k in owner && k.provider == c }

  function OwnedBy(owner: map<Key, nat>, c: nat): set<Key> { set k | k in owner && owner[k] == c }

  class EventScopes {
    var owner: map<Key, nat>
    var byProvider: map<nat, set<Key>>
    var byOwner: map<nat, set<Key>>

    /** Both indexes say exactly what the table says, and hold no empty set. */
    ghost predicate Valid()
      reads this
    {
      && (forall c :: Of(byProvider, c) == ProvidedBy(owner, c) && Of(byOwner, c) == OwnedBy(owner, c))
      && (forall c :: c in byProvider ==> byProvider[c] != {}) && (forall c :: c in byOwner ==> byOwner[c] != {})
    }

    constructor ()
      ensures Valid() && owner == map[]
    {
      owner, byProvider, byOwner := map[], map[], map[];
      new;
      forall c ensures ProvidedBy(owner, c) == {} && OwnedBy(owner, c) == {} {}
    }

    /** A later bind of the same instance overrides. */
    method Bind(provider: nat, endpoint: nat, scope: nat, who: nat)
      requires Valid()
      modifies this
      ensures Valid() && owner == old(owner)[Key(provider, endpoint, scope) := who]
    {
      var key := Key(provider, endpoint, scope);
      ghost var was, providers, owners := owner, byProvider, byOwner;
      if key in owner && owner[key] != who { byOwner := Without(byOwner, owner[key], key); }
      ghost var freed := byOwner;
      owner := owner[key := who];
      byProvider := byProvider[provider := Of(byProvider, provider) + {key}];
      byOwner := byOwner[who := Of(byOwner, who) + {key}];
      forall c ensures Of(byProvider, c) == ProvidedBy(owner, c) && Of(byOwner, c) == OwnedBy(owner, c) {
        assert Of(providers, c) == ProvidedBy(was, c) && Of(owners, c) == OwnedBy(was, c);
        BoundOwner(was, key, who, c);
        if key in was && was[key] != who { WithoutIs(owners, was[key], key, c); }
      }
    }

    /** Take one registration and its traces out; nothing happens if it is not there. */
    method Remove(key: Key)
      requires Valid()
      modifies this
      ensures Valid() && owner == old(owner) - {key}
    {
      if key !in owner { return; }
      ghost var was, providers, owners := owner, byProvider, byOwner;
      var who := owner[key];
      owner := owner - {key};
      byOwner := Without(byOwner, who, key);
      byProvider := Without(byProvider, key.provider, key);
      forall c ensures Of(byProvider, c) == ProvidedBy(owner, c) && Of(byOwner, c) == OwnedBy(owner, c) {
        assert Of(providers, c) == ProvidedBy(was, c) && Of(owners, c) == OwnedBy(was, c);
        WithoutIs(providers, key.provider, key, c);
        WithoutIs(owners, who, key, c);
        UnboundOwner(was, key, c);
      }
    }

    method Release(provider: nat, endpoint: nat, scope: nat)
      requires Valid()
      modifies this
      ensures Valid() && owner == old(owner) - {Key(provider, endpoint, scope)}
    {
      Remove(Key(provider, endpoint, scope));
    }

    /** Fails closed: only the registered owner of a registered, non-zero scope. */
    method Allows(provider: nat, endpoint: nat, scope: nat, subscriber: nat) returns (ok: bool)
      ensures ok <==> provider != 0 && subscriber != 0 && scope != 0 &&
                      Key(provider, endpoint, scope) in owner && owner[Key(provider, endpoint, scope)] == subscriber
    {
      if provider == 0 || subscriber == 0 || scope == 0 { return false; }
      var key := Key(provider, endpoint, scope);
      return key in owner && owner[key] == subscriber;
    }

    // The keys are collected first: removing them changes the index.
    method RemoveAll(keys: set<Key>)
      requires Valid()
      modifies this
      ensures Valid() && owner == old(owner) - keys
    {
      var left := keys;
      while left != {}
        invariant Valid() && left <= keys && owner == old(owner) - (keys - left)
        decreases |left|
      {
        var key :| key in left;
        Remove(key);
        left := left - {key};
      }
      assert keys - left == keys;
    }

    /** A Provider connection is gone: exactly its instances disappear. */
    method CloseProvider(c: nat)
      requires Valid()
      modifies this
      ensures Valid() && forall k :: k in owner <==> k in old(owner) && k.provider != c
      ensures forall k :: k in owner ==> owner[k] == old(owner)[k]
    {
      assert Of(byProvider, c) == ProvidedBy(owner, c);
      RemoveAll(Of(byProvider, c));
    }

    /** A subscriber's connection is gone: exactly the instances it owns disappear. */
    method CloseOwner(c: nat)
      requires Valid()
      modifies this
      ensures Valid() && forall k :: k in owner <==> k in old(owner) && old(owner)[k] != c
      ensures forall k :: k in owner ==> owner[k] == old(owner)[k]
    {
      assert Of(byOwner, c) == OwnedBy(owner, c);
      RemoveAll(Of(byOwner, c));
    }

    /** An endpoint is withdrawn: exactly its instances disappear. */
    method CloseEndpoint(c: nat, endpoint: nat)
      requires Valid()
      modifies this
      ensures Valid() && forall k :: k in owner <==> k in old(owner) && !(k.provider == c && k.endpoint == endpoint)
      ensures forall k :: k in owner ==> owner[k] == old(owner)[k]
    {
      assert Of(byProvider, c) == ProvidedBy(owner, c);
      RemoveAll(set k | k in Of(byProvider, c) && k.endpoint == endpoint);
    }
  }

  function Without(index: map<nat, set<Key>>, c: nat, key: Key): map<nat, set<Key>> {
    if c !in index then index
    else if index[c] - {key} == {} then index - {c}
    else index[c := index[c] - {key}]
  }

  lemma WithoutIs(index: map<nat, set<Key>>, c: nat, key: Key, d: nat)
    ensures Of(Without(index, c, key), d) == if d == c then Of(index, c) - {key} else Of(index, d)
  {
  }

  lemma BoundOwner(was: map<Key, nat>, key: Key, who: nat, c: nat)
    ensures OwnedBy(was[key := who], c) == if c == who then OwnedBy(was, c) + {key} else OwnedBy(was, c) - {key}
    ensures ProvidedBy(was[key := who], c) == if c == key.provider then ProvidedBy(was, c) + {key} else ProvidedBy(was, c)
    ensures key in was ==> forall d :: key in OwnedBy(was, d) <==> d == was[key]
    ensures key !in was ==> key !in OwnedBy(was, c)
  {
  }

  lemma UnboundOwner(was: map<Key, nat>, key: Key, c: nat)
    requires key in was
    ensures OwnedBy(was - {key}, c) == if c == was[key] then OwnedBy(was, c) - {key} else OwnedBy(was, c)
    ensures ProvidedBy(was - {key}, c) == if c == key.provider then ProvidedBy(was, c) - {key} else ProvidedBy(was, c)
  {
  }
}
