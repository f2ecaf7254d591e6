/**
 * SignalProtocolStore (src/omemo.js): the in-memory dictionary behind the
 * OMEMO layer, with its guarded `put`/`get`/`remove` and the namespaced
 * accessors for prekeys, signed prekeys, sessions and remote identity keys.
 */
module KeyStore {
  import opened Wrappers
  import opened JsValues

  const PreKeyPrefix := "25519KeypreKey"
  const SignedPreKeyPrefix := "25519KeysignedKey"
  const SessionPrefix := "session"
  const IdentityKeyPrefix := "identityKey"

  /** Dictionary key of a one-time prekey: `'25519KeypreKey' + keyId`. */
  function PreKeyKey(keyId: JsValue): string {
    PreKeyPrefix + ToText(keyId)
  }

  /** Dictionary key of a signed prekey: `'25519KeysignedKey' + keyId`. */
  function SignedPreKeyKey(keyId: JsValue): string {
    SignedPreKeyPrefix + ToText(keyId)
  }

  /** Dictionary key of a session record: `'session' + identifier`. */
  function SessionKey(identifier: JsValue): string {
    SessionPrefix + ToText(identifier)
  }

  /** Dictionary key of a remote identity key: `'identityKey' + identifier`. */
  function IdentityKeyKey(identifier: JsValue): string {
    IdentityKeyPrefix + ToText(identifier)
  }

  /** Distinct numeric prekey ids never share a dictionary key. */
  lemma PreKeyKeyInjective(a: int, b: int)
    requires PreKeyKey(JsNumber(a)) == PreKeyKey(JsNumber(b))
    ensures a == b
  {
    assert PreKeyKey(JsNumber(a))[|PreKeyPrefix|..] == IntText(a);
    assert PreKeyKey(JsNumber(b))[|PreKeyPrefix|..] == IntText(b);
    IntTextInjective(a, b);
  }

  /** The four accessor namespaces never share a dictionary key. */
  lemma NamespacesDisjoint(a: JsValue, b: JsValue)
    ensures PreKeyKey(a) != SignedPreKeyKey(b)
    ensures PreKeyKey(a) != SessionKey(b) && SignedPreKeyKey(a) != SessionKey(b)
    ensures PreKeyKey(a) != IdentityKeyKey(b) && SignedPreKeyKey(a) != IdentityKeyKey(b)
    ensures SessionKey(a) != IdentityKeyKey(b)
  {
    assert PreKeyKey(a)[8] == 'p' && SignedPreKeyKey(b)[8] == 's';
    assert PreKeyKey(a)[0] == SignedPreKeyKey(a)[0] == '2';
    assert SessionKey(a)[0] == 's' && SessionKey(b)[0] == 's';
    assert IdentityKeyKey(b)[0] == 'i';
  }

  /**
   * The identity-key namespace reaches the fixed key of the local identity pair: an
   * identifier whose text is empty reads and writes `identityKey` itself. No other
   * namespace meets the two fixed keys.
   */
  lemma FixedKeysMet(a: JsValue)
    ensures IdentityKeyKey(a) == "identityKey" <==> ToText(a) == ""
    ensures IdentityKeyKey(a) != "registrationId" && SessionKey(a) != "registrationId"
    ensures PreKeyKey(a) != "identityKey" && SignedPreKeyKey(a) != "identityKey" && SessionKey(a) != "identityKey"
    ensures PreKeyKey(a) != "registrationId" && SignedPreKeyKey(a) != "registrationId"
  {
    assert PreKeyKey(a)[0] == SignedPreKeyKey(a)[0] == '2';
    assert SessionKey(a)[0] == 's' && IdentityKeyKey(a)[0] == 'i';
    if ToText(a) != "" {
      assert |IdentityKeyKey(a)| > |"identityKey"|;
    }
  }

  /** `removeAllSessions(x)` matches by prefix, so it also reaches every identifier that textually extends `x`. */
  lemma SessionPrefixCoversExtensions(x: string, y: string)
    ensures StartsWith(SessionKey(JsString(x + y)), SessionKey(JsString(x)))
  {
    assert SessionKey(JsString(x + y)) == SessionKey(JsString(x)) + y;
  }

  /** A key pair as libsignal produces it: `{pubKey, privKey}` with ArrayBuffer halves. */
  datatype KeyPair = KeyPair(pubKey: seq<bv8>, privKey: seq<bv8>)

  function KeyPairValue(kp: KeyPair): JsValue {
    JsObject(map["pubKey" := JsBuffer(kp.pubKey), "privKey" := JsBuffer(kp.privKey)])
  }

  /** The copy `{pubKey: res.pubKey, privKey: res.privKey}` that loadPreKey and loadSignedPreKey return. */
  function KeyPairCopy(v: JsValue): JsValue {
    JsObject(map["pubKey" := Property(v, "pubKey"), "privKey" := Property(v, "privKey")])
  }

  /** Loading a stored key pair gives back exactly its public and private halves. */
  lemma KeyPairCopyRoundTrip(kp: KeyPair)
    ensures KeyPairCopy(KeyPairValue(kp)) == KeyPairValue(kp)
  {
    var v := KeyPairValue(kp);
    assert Property(v, "pubKey") == JsBuffer(kp.pubKey);
    assert Property(v, "privKey") == JsBuffer(kp.privKey);
  }

  /** The binary string libsignal compares identity keys by (an ArrayBuffer becomes one char per byte). */
  function BinaryText(v: JsValue): string {
    match v
    case JsBuffer(bytes) => seq(|bytes|, i requires 0 <= i < |bytes| => (bytes[i] as int) as char)
    case JsString(s) => s
    case _ => ToText(v)
  }

  /** The dictionary with the keys under `prefix` deleted and every other entry as it was. */
  function WithoutPrefix(m: map<string, JsValue>, prefix: string): map<string, JsValue> {
    map k | k in m && !StartsWith(k, prefix) :: m[k]
  }

  class SignalProtocolStore {
    var store: map<string, JsValue>

    /** No stored value is null or undefined: `put` refuses them at the boundary. */
    ghost predicate Valid()
      reads this
    {
      forall k :: k in store ==> !store[k].Nullish()
    }

    constructor()
      ensures Valid() && store == map[]
    {
      store := map[];
    }

    /** What `this.store[k]` reads: the entry, or undefined when there is none. */
    function Lookup(k: string): JsValue
      reads this
    {
      if k in store then store[k] else JsUndefined
    }

    /** `get(key, defaultValue)`: throws on a null/undefined key, never changes the store. */
    function Get(key: JsValue, defaultValue: JsValue): (r: Result<JsValue>)
      reads this
      ensures r.Err? <==> key.Nullish()
      ensures r.Ok? && ToText(key) in store ==> r.value == store[ToText(key)]
      ensures r.Ok? && ToText(key) !in store ==> r.value == defaultValue
    {
      if key.Nullish() then Err("Tried to get value for undefined/null key")
      else if ToText(key) in store then Ok(store[ToText(key)])
      else Ok(defaultValue)
    }

    /** `put(key, value)`: throws on a null/undefined key or value; otherwise only `key` changes. */
    method Put(key: JsValue, value: JsValue) returns (r: Result<()>)
      requires Valid()
      modifies this
      ensures Valid()
      ensures r.Err? <==> key.Nullish() || value.Nullish()
      ensures r.Err? ==> store == old(store)
      ensures r.Ok? ==> store == old(store)[ToText(key) := value]
      ensures r.Ok? ==> forall d :: Get(key, d) == Ok(value)
    {
      if key.Nullish() || value.Nullish() {
        return Err("Tried to store undefined/null");
      }
      store := store[ToText(key) := value];
      return Ok(());
    }

    /** `remove(key)`: throws on a null/undefined key; otherwise deletes `key` and nothing else. */
    method Remove(key: JsValue) returns (r: Result<()>)
      requires Valid()
      modifies this
      ensures Valid()
      ensures r.Err? <==> key.Nullish()
      ensures r.Err? ==> store == old(store)
      ensures r.Ok? ==> store == old(store) - {ToText(key)}
      ensures r.Ok? ==> forall d :: Get(key, d) == Ok(d)
    {
      if key.Nullish() {
        return Err("Tried to remove value for undefined/null key");
      }
      store := store - {ToText(key)};
      return Ok(());
    }

    /** `getIdentityKeyPair()`: the local identity key pair, as `get('identityKey')`. */
    function GetIdentityKeyPair(): (r: JsValue)
      reads this
      ensures "identityKey" in store ==> r == store["identityKey"]
      ensures "identityKey" !in store ==> r == JsUndefined
    {
      Get(JsString("identityKey"), JsUndefined).value
    }

    /** `getLocalRegistrationId()`: as `get('registrationId')`. */
    function GetLocalRegistrationId(): (r: JsValue)
      reads this
      ensures "registrationId" in store ==> r == store["registrationId"]
      ensures "registrationId" !in store ==> r == JsUndefined
    {
      Get(JsString("registrationId"), JsUndefined).value
    }

    /**
     * `isTrustedIdentity(identifier, identityKey)`: trust on first use. True when nothing is
     * recorded under `'identityKey' + identifier`, otherwise whether the recorded key has the
     * same binary text as the presented one.
     */
    function IsTrustedIdentity(identifier: JsValue, identityKey: JsValue): (r: Result<bool>)
      requires Valid()
      reads this
      ensures r.Err? <==> identifier.Nullish() || !identityKey.JsBuffer?
      ensures r.Ok? && IdentityKeyKey(identifier) !in store ==> r.value
      ensures r.Ok? && IdentityKeyKey(identifier) in store ==>
        (r.value <==> BinaryText(identityKey) == BinaryText(store[IdentityKeyKey(identifier)]))
    {
      if identifier.Nullish() then Err("tried to check identity key for undefined/null key")
      else if !identityKey.JsBuffer? then Err("Expected identityKey to be an ArrayBuffer")
      else
        var trusted := Get(JsString(IdentityKeyKey(identifier)), JsUndefined).value;
        if trusted == JsUndefined then Ok(true)
        else Ok(BinaryText(identityKey) == BinaryText(trusted))
    }

    /** `loadIdentityKey(identifier)`: the recorded identity key, or undefined. */
    function LoadIdentityKey(identifier: JsValue): (r: Result<JsValue>)
      reads this
      ensures r.Err? <==> identifier.Nullish()
      ensures r.Ok? ==> r.value == Lookup(IdentityKeyKey(identifier))
    {
      if identifier.Nullish() then Err("Tried to get identity key for undefined/null key")
      else Get(JsString(IdentityKeyKey(identifier)), JsUndefined)
    }

    /**
     * `saveIdentity(identifier, identityKey)`. `name` is what the foreign
     * `SignalProtocolAddress.fromString(identifier).getName()` yields, an error when
     * `fromString` throws; `libToText` is the foreign `libsignal.toString` the change report
     * compares by. Always overwrites `'identityKey' + name`; answers whether a truthy
     * earlier entry differed.
     */
    method SaveIdentity(identifier: JsValue, name: Result<string>, identityKey: JsValue, libToText: JsValue -> string)
      returns (r: Result<bool>)
      requires Valid()
      modifies this
      ensures Valid()
      ensures identifier.Nullish() || name.Err? || identityKey.Nullish() ==> r.Err? && store == old(store)
      ensures !identifier.Nullish() && name.Ok? && !identityKey.Nullish() ==>
        var k := IdentityKeyKey(JsString(name.value));
        && store == old(store)[k := identityKey]
        && r == Ok(k in old(store) && old(store)[k].Truthy()
                   && libToText(identityKey) != libToText(old(store)[k]))
      ensures r.Ok? && name.Ok? && identityKey.JsBuffer? ==>
        IsTrustedIdentity(JsString(name.value), identityKey) == Ok(true)
      // the entry that isTrustedIdentity(identifier, _) consults is untouched unless name == String(identifier)
      ensures name.Ok? && IdentityKeyKey(identifier) != IdentityKeyKey(JsString(name.value)) ==>
        Lookup(IdentityKeyKey(identifier)) == old(Lookup(IdentityKeyKey(identifier)))
    {
      if identifier.Nullish() {
        return Err("Tried to put identity key for undefined/null key");
      }
      if name.Err? {
        return Err(name.message);
      }
      var k := IdentityKeyKey(JsString(name.value));
      var existing := Get(JsString(k), JsUndefined).value;
      var put := Put(JsString(k), identityKey);
      if put.Err? {
        return Err(put.message);
      }
      return Ok(existing.Truthy() && libToText(identityKey) != libToText(existing));
    }

    /** `loadPreKey(keyId)`: a `{pubKey, privKey}` copy of the stored pair, or undefined. */
    function LoadPreKey(keyId: JsValue): (r: JsValue)
      requires Valid()
      reads this
      ensures PreKeyKey(keyId) !in store ==> r == JsUndefined
      ensures PreKeyKey(keyId) in store ==> r == KeyPairCopy(store[PreKeyKey(keyId)])
    {
      var res := Get(JsString(PreKeyKey(keyId)), JsUndefined).value;
      if res != JsUndefined then KeyPairCopy(res) else res
    }

    /** `storePreKey(keyId, keyPair)` */
    method StorePreKey(keyId: JsValue, keyPair: JsValue) returns (r: Result<()>)
      requires Valid()
      modifies this
      ensures Valid()
      ensures r.Err? <==> keyPair.Nullish()
      ensures r.Err? ==> store == old(store)
      ensures r.Ok? ==> store == old(store)[PreKeyKey(keyId) := keyPair]
      ensures r.Ok? ==> LoadPreKey(keyId) == KeyPairCopy(keyPair)
    {
      r := Put(JsString(PreKeyKey(keyId)), keyPair);
    }

    /** `removePreKey(keyId)` */
    method RemovePreKey(keyId: JsValue)
      requires Valid()
      modifies this
      ensures Valid()
      ensures store == old(store) - {PreKeyKey(keyId)}
      ensures LoadPreKey(keyId) == JsUndefined
    {
      var _ := Remove(JsString(PreKeyKey(keyId)));
    }

    /** `loadSignedPreKey(keyId)`: a `{pubKey, privKey}` copy of the stored pair, or undefined. */
    function LoadSignedPreKey(keyId: JsValue): (r: JsValue)
      requires Valid()
      reads this
      ensures SignedPreKeyKey(keyId) !in store ==> r == JsUndefined
      ensures SignedPreKeyKey(keyId) in store ==> r == KeyPairCopy(store[SignedPreKeyKey(keyId)])
    {
      var res := Get(JsString(SignedPreKeyKey(keyId)), JsUndefined).value;
      if res != JsUndefined then KeyPairCopy(res) else res
    }

    /** `storeSignedPreKey(keyId, keyPair)` */
    method StoreSignedPreKey(keyId: JsValue, keyPair: JsValue) returns (r: Result<()>)
      requires Valid()
      modifies this
      ensures Valid()
      ensures r.Err? <==> keyPair.Nullish()
      ensures r.Err? ==> store == old(store)
      ensures r.Ok? ==> store == old(store)[SignedPreKeyKey(keyId) := keyPair]
      ensures r.Ok? ==> LoadSignedPreKey(keyId) == KeyPairCopy(keyPair)
    {
      r := Put(JsString(SignedPreKeyKey(keyId)), keyPair);
    }

    /** `removeSignedPreKey(keyId)` */
    method RemoveSignedPreKey(keyId: JsValue)
      requires Valid()
      modifies this
      ensures Valid()
      ensures store == old(store) - {SignedPreKeyKey(keyId)}
      ensures LoadSignedPreKey(keyId) == JsUndefined
    {
      var _ := Remove(JsString(SignedPreKeyKey(keyId)));
    }

    /** `loadSession(identifier)`: the stored record, or undefined. */
    function LoadSession(identifier: JsValue): (r: JsValue)
      reads this
      ensures SessionKey(identifier) in store ==> r == store[SessionKey(identifier)]
      ensures SessionKey(identifier) !in store ==> r == JsUndefined
    {
      Get(JsString(SessionKey(identifier)), JsUndefined).value
    }

    /** `hasSession(identifier)`: `!!get('session' + identifier)`. */
    predicate HasSession(identifier: JsValue)
      reads this
      ensures HasSession(identifier) <==>
        SessionKey(identifier) in store && store[SessionKey(identifier)].Truthy()
    {
      LoadSession(identifier).Truthy()
    }

    /** `storeSession(identifier, record)` */
    method StoreSession(identifier: JsValue, record: JsValue) returns (r: Result<()>)
      requires Valid()
      modifies this
      ensures Valid()
      ensures r.Err? <==> record.Nullish()
      ensures r.Err? ==> store == old(store)
      ensures r.Ok? ==> store == old(store)[SessionKey(identifier) := record]
      ensures r.Ok? ==> LoadSession(identifier) == record && (HasSession(identifier) <==> record.Truthy())
    {
      r := Put(JsString(SessionKey(identifier)), record);
    }

    /** `removeSession(identifier)` */
    method RemoveSession(identifier: JsValue)
      requires Valid()
      modifies this
      ensures Valid()
      ensures store == old(store) - {SessionKey(identifier)}
      ensures !HasSession(identifier)
    {
      var _ := Remove(JsString(SessionKey(identifier)));
    }

    /**
     * `removeAllSessions(identifier)`: a for-in loop deleting every key that starts with
     * `'session' + identifier`; every other key keeps its value.
     */
    method RemoveAllSessions(identifier: JsValue)
      requires Valid()
      modifies this
      ensures Valid()
      ensures store == WithoutPrefix(old(store), SessionKey(identifier))
      ensures forall k :: k in old(store) && !StartsWith(k, SessionKey(identifier)) ==>
        k in store && store[k] == old(store)[k]
      ensures forall k :: k in store ==> !StartsWith(k, SessionKey(identifier))
    {
      var prefix := SessionKey(identifier);
      var pending := store.Keys;
      while pending != {}
        invariant pending <= old(store).Keys
        invariant store == map k | k in old(store) && (k in pending || !StartsWith(k, prefix)) :: old(store)[k]
        decreases pending
      {
        var id :| id in pending;
        if StartsWith(id, prefix) {
          store := store - {id};
        }
        pending := pending - {id};
      }
    }
  }
}
