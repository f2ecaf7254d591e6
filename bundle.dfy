/**
 * Bundle (src/omemo.js): the account's identity key, registration id and the keys it
 * publishes — PREKEYS_COUNT one-time prekeys with ids 0 .. PREKEYS_COUNT - 1 and one
 * signed prekey with id 1 — each also written to the store. Key generation belongs to
 * libsignal's KeyHelper: what it yields is passed in.
 */
module Bundles {
  import opened Wrappers
  import opened JsValues
  import opened KeyStore

  /** What KeyHelper.generatePreKey / generateSignedPreKey yield: `{keyId, keyPair[, signature]}`. */
  datatype GeneratedKey = GeneratedKey(keyId: nat, keyPair: KeyPair, signature: Option<seq<bv8>>)

  /** The one-time prekeys `generatePreKey(0) .. generatePreKey(count - 1)`, in id order. */
  function OneTimeKeys(count: nat, generate: nat -> KeyPair): (keys: seq<GeneratedKey>)
    ensures |keys| == count
    ensures forall i :: 0 <= i < count ==> keys[i] == GeneratedKey(i, generate(i), None)
  {
    if count == 0 then [] else OneTimeKeys(count - 1, generate) + [GeneratedKey(count - 1, generate(count - 1), None)]
  }

  /** The store entries `storePreKey(i, keyPair)` writes for i < count. */
  function PreKeyEntries(count: nat, generate: nat -> KeyPair): map<string, JsValue> {
    if count == 0 then map[]
    else PreKeyEntries(count - 1, generate)[PreKeyKey(JsNumber(count - 1)) := KeyPairValue(generate(count - 1))]
  }

  /** Those entries are exactly the prekey keys of ids below count, each holding its own key pair. */
  lemma {:induction false} PreKeyEntriesAt(count: nat, generate: nat -> KeyPair, i: int)
    ensures PreKeyKey(JsNumber(i)) in PreKeyEntries(count, generate) <==> 0 <= i < count
    ensures 0 <= i < count ==> PreKeyEntries(count, generate)[PreKeyKey(JsNumber(i))] == KeyPairValue(generate(i))
  {
    if count > 0 {
      var last := PreKeyKey(JsNumber(count - 1));
      var key := PreKeyKey(JsNumber(i));
      assert PreKeyEntries(count, generate) == PreKeyEntries(count - 1, generate)[last := KeyPairValue(generate(count - 1))];
      PreKeyEntriesAt(count - 1, generate, i);
      if key == last {
        PreKeyKeyInjective(i, count - 1);
      }
    }
  }

  /** Every entry lies in the prekey namespace, so no other store key is touched. */
  lemma {:induction false} PreKeyEntriesOnlyPreKeys(count: nat, generate: nat -> KeyPair, k: string)
    requires k in PreKeyEntries(count, generate)
    ensures exists i :: 0 <= i < count && k == PreKeyKey(JsNumber(i))
    ensures StartsWith(k, PreKeyPrefix)
  {
    if k != PreKeyKey(JsNumber(count - 1)) {
      PreKeyEntriesOnlyPreKeys(count - 1, generate, k);
    } else {
      assert k[..|PreKeyPrefix|] == PreKeyPrefix;
    }
  }

  /**
   * After generatePreKeys every one-time prekey id below count holds its own pair (the
   * signed prekey's key lies in another namespace), and every key outside the prekey
   * namespace other than the signed prekey's keeps its value.
   */
  lemma GeneratedEntries(base: map<string, JsValue>, count: nat, generate: nat -> KeyPair, signedPair: KeyPair)
    ensures var m := (base + PreKeyEntries(count, generate))[SignedPreKeyKey(JsNumber(1)) := KeyPairValue(signedPair)];
      && (forall i :: 0 <= i < count ==>
            PreKeyKey(JsNumber(i)) in m && KeyPairCopy(m[PreKeyKey(JsNumber(i))]) == KeyPairValue(generate(i)))
      && (forall k :: k in base && !StartsWith(k, PreKeyPrefix) && k != SignedPreKeyKey(JsNumber(1)) ==>
            k in m && m[k] == base[k])
  {
    var m := (base + PreKeyEntries(count, generate))[SignedPreKeyKey(JsNumber(1)) := KeyPairValue(signedPair)];
    forall i | 0 <= i < count
      ensures PreKeyKey(JsNumber(i)) in m && KeyPairCopy(m[PreKeyKey(JsNumber(i))]) == KeyPairValue(generate(i))
    {
      PreKeyEntriesAt(count, generate, i);
      NamespacesDisjoint(JsNumber(i), JsNumber(1));
      KeyPairCopyRoundTrip(generate(i));
    }
    forall k | k in base && !StartsWith(k, PreKeyPrefix) && k != SignedPreKeyKey(JsNumber(1))
      ensures k in m && m[k] == base[k]
    {
      if k in PreKeyEntries(count, generate) {
        PreKeyEntriesOnlyPreKeys(count, generate, k);
      }
    }
  }

  lemma UnionUpdate(m: map<string, JsValue>, e: map<string, JsValue>, k: string, v: JsValue)
    ensures (m + e)[k := v] == m + e[k := v]
  {
  }

  class Bundle {
    const store: SignalProtocolStore
    var preKeys: seq<GeneratedKey>

    /**
     * `initialize`: generateIdentity, then generatePreKeys, whose result becomes `preKeys`.
     * `identity`, `registrationId`, `generate`, `signedPair` and `signature` are what
     * KeyHelper yields.
     */
    constructor(store: SignalProtocolStore, identity: KeyPair, registrationId: nat, count: nat,
                generate: nat -> KeyPair, signedPair: KeyPair, signature: seq<bv8>)
      requires store.Valid()
      modifies store
      ensures this.store == store && store.Valid()
      ensures preKeys == OneTimeKeys(count, generate) + [GeneratedKey(1, signedPair, Some(signature))]
      ensures store.GetIdentityKeyPair() == KeyPairValue(identity)
      ensures forall i :: 0 <= i < count ==> store.LoadPreKey(JsNumber(i)) == KeyPairValue(generate(i))
      ensures store.LoadSignedPreKey(JsNumber(1)) == KeyPairValue(signedPair)
    {
      this.store := store;
      preKeys := [];
      new;
      GenerateIdentity(identity, registrationId);
      ghost var identityKey := "identityKey";
      assert !StartsWith(identityKey, PreKeyPrefix);
      assert identityKey != SignedPreKeyKey(JsNumber(1)) by {
        assert |SignedPreKeyKey(JsNumber(1))| > |identityKey|;
      }
      var keys := GeneratePreKeys(count, generate, signedPair, signature);
      preKeys := keys;
    }

    /** `generateIdentity()`: stores the identity key pair and the registration id, and nothing else. */
    method GenerateIdentity(identity: KeyPair, registrationId: nat)
      requires store.Valid()
      modifies store
      ensures store.Valid()
      ensures store.store == old(store.store)["identityKey" := KeyPairValue(identity)]
                                             ["registrationId" := JsNumber(registrationId)]
      ensures store.GetIdentityKeyPair() == KeyPairValue(identity)
      ensures store.GetLocalRegistrationId() == JsNumber(registrationId)
    {
      var _ := store.Put(JsString("identityKey"), KeyPairValue(identity));
      var _ := store.Put(JsString("registrationId"), JsNumber(registrationId));
    }

    /**
     * `generatePreKeys()`: count one-time prekeys with ids 0 .. count - 1, then the signed
     * prekey with id 1, each stored under its own prefix as it is generated.
     */
    method GeneratePreKeys(count: nat, generate: nat -> KeyPair, signedPair: KeyPair, signature: seq<bv8>)
      returns (keys: seq<GeneratedKey>)
      requires store.Valid()
      modifies store
      ensures store.Valid()
      ensures keys == OneTimeKeys(count, generate) + [GeneratedKey(1, signedPair, Some(signature))]
      ensures store.store == (old(store.store) + PreKeyEntries(count, generate))
                               [SignedPreKeyKey(JsNumber(1)) := KeyPairValue(signedPair)]
      ensures forall i :: 0 <= i < count ==> store.LoadPreKey(JsNumber(i)) == KeyPairValue(generate(i))
      ensures store.LoadSignedPreKey(JsNumber(1)) == KeyPairValue(signedPair)
      ensures forall k :: k in old(store.store) && !StartsWith(k, PreKeyPrefix) && k != SignedPreKeyKey(JsNumber(1)) ==>
        k in store.store && store.store[k] == old(store.store)[k]
    {
      keys := [];
      for i := 0 to count
        invariant store.Valid()
        invariant keys == OneTimeKeys(i, generate)
        invariant store.store == old(store.store) + PreKeyEntries(i, generate)
      {
        UnionUpdate(old(store.store), PreKeyEntries(i, generate), PreKeyKey(JsNumber(i)), KeyPairValue(generate(i)));
        var k := GeneratePreKey(i, generate(i));
        keys := keys + [k];
      }
      var signed := GenerateSignedPreKey(1, signedPair, signature);
      keys := keys + [signed];
      GeneratedEntries(old(store.store), count, generate, signedPair);
    }

    /** `generatePreKey(id)`: the generated one-time prekey, stored under its id. */
    method GeneratePreKey(id: nat, keyPair: KeyPair) returns (key: GeneratedKey)
      requires store.Valid()
      modifies store
      ensures store.Valid()
      ensures key == GeneratedKey(id, keyPair, None)
      ensures store.store == old(store.store)[PreKeyKey(JsNumber(id)) := KeyPairValue(keyPair)]
    {
      var _ := store.StorePreKey(JsNumber(id), KeyPairValue(keyPair));
      key := GeneratedKey(id, keyPair, None);
    }

    /** `generateSignedPreKey(id)`: the signed prekey, stored under its id in the signed namespace. */
    method GenerateSignedPreKey(id: nat, keyPair: KeyPair, signature: seq<bv8>) returns (key: GeneratedKey)
      requires store.Valid()
      modifies store
      ensures store.Valid()
      ensures key == GeneratedKey(id, keyPair, Some(signature))
      ensures store.store == old(store.store)[SignedPreKeyKey(JsNumber(id)) := KeyPairValue(keyPair)]
      ensures store.LoadSignedPreKey(JsNumber(id)) == KeyPairValue(keyPair)
    {
      var _ := store.StoreSignedPreKey(JsNumber(id), KeyPairValue(keyPair));
      KeyPairCopyRoundTrip(keyPair);
      key := GeneratedKey(id, keyPair, Some(signature));
    }
  }

  /** `preKeys.find(pk => pk.signature)`: the first key carrying a signature. */
  function FirstSigned(keys: seq<GeneratedKey>): (spk: Option<GeneratedKey>)
    ensures spk.None? <==> forall i :: 0 <= i < |keys| ==> keys[i].signature.None?
    ensures spk.Some? ==> spk.value.signature.Some?
    ensures spk.Some? ==> exists i :: 0 <= i < |keys| && keys[i] == spk.value && (forall j :: 0 <= j < i ==> keys[j].signature.None?)
  {
    if keys == [] then None
    else if keys[0].signature.Some? then Some(keys[0])
    else
      var rest := FirstSigned(keys[1..]);
      assert forall j :: 1 <= j < |keys| ==> keys[j] == keys[1..][j - 1];
      rest
  }

  /** Among the generated keys, the signed prekey is the one `find` picks. */
  lemma FirstSignedOfGenerated(count: nat, generate: nat -> KeyPair, signed: GeneratedKey)
    requires signed.signature.Some?
    ensures FirstSigned(OneTimeKeys(count, generate) + [signed]) == Some(signed)
  {
    var keys := OneTimeKeys(count, generate) + [signed];
    var spk := FirstSigned(keys);
    assert forall j :: 0 <= j < count ==> keys[j].signature.None?;
    assert keys[count] == signed;
    var i :| 0 <= i < |keys| && keys[i] == spk.value && (forall j :: 0 <= j < i ==> keys[j].signature.None?);
    assert i == count;
  }
}
