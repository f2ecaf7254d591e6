/**
 * Device (src/omemo.js): one remote or own endpoint `(jid, id)`. It accumulates the
 * one-time prekeys of the bundles it fetches, picks one at random, bootstraps a
 * session only when the store has none, caches its SessionCipher, and dispatches
 * decryption on the prekey flag. The libsignal calls are oracles: their results are
 * parameters, and what the device hands to them is returned.
 */
module Devices {
  import opened Wrappers
  import opened JsValues
  import opened KeyStore

  /**
   * `Math.floor(min + Math.random() * (max + 1 - min))` with the random number as `r`.
   * Inside [min, max] when that range is non-empty; exactly `min` when it is empty.
   */
  function RandomInRange(min: int, max: int, r: real): (i: int)
    requires 0.0 <= r < 1.0
    ensures min <= max ==> min <= i <= max
    ensures max + 1 == min ==> i == min
  {
    var width := (max + 1 - min) as real;
    if min <= max then
      ScaledFraction(r, width);
      (min as real + r * width).Floor
    else
      (min as real + r * width).Floor
  }

  /** A fraction in [0, 1) of a positive width stays inside [0, width). */
  lemma ScaledFraction(r: real, width: real)
    requires 0.0 <= r < 1.0 && width > 0.0
    ensures 0.0 <= r * width < width
  {
    assert (1.0 - r) * width > 0.0;
  }

  /** A `<pk id=…>key</pk>` entry of a fetched bundle (attribute and text as read). */
  datatype PreKeyRef = PreKeyRef(id: string, key: string)

  /** The `<spk>` entry with the `<spks>` signature text. */
  datatype SignedPreKeyRef = SignedPreKeyRef(id: string, key: string, signature: string)

  /** What the transport's getBundleInfo reply yields after parsing. */
  datatype BundleReply = BundleReply(spk: SignedPreKeyRef, ik: string, preKeys: seq<PreKeyRef>)

  /** What getBundle resolves with: `{pk, spk, ik}`, `pk` undefined when none could be picked. */
  datatype FetchedBundle = FetchedBundle(pk: Option<PreKeyRef>, spk: SignedPreKeyRef, ik: string)

  /** The record initSession hands to processPreKey (base64 decoding and Number() left to the callee). */
  datatype PreKeyBundle = PreKeyBundle(registrationId: nat, identityKey: string,
                                       signedPreKey: SignedPreKeyRef, preKey: PreKeyRef)

  /** What libsignal's SessionCipher.encrypt resolves with: `{type, body}`. */
  datatype Ciphertext = Ciphertext(msgType: int, body: string)

  /** Device.encrypt's result `{preKey, ciphertext, deviceId}`. */
  datatype EncryptedKey = EncryptedKey(preKey: bool, ciphertext: Ciphertext, deviceId: nat)

  /** The libsignal call Device.decrypt makes. */
  datatype DecryptPath = PreKeyWhisperMessage | WhisperMessage

  /** The string form `name.deviceId` of a libsignal SignalProtocolAddress. */
  function AddressText(jid: string, id: nat): string {
    jid + "." + DecimalText(id)
  }

  /** A libsignal SessionCipher, identified by the address it was built for. */
  class SessionCipher {
    const address: string

    constructor(address: string)
      ensures this.address == address
    {
      this.address := address;
    }
  }

  class Device {
    const id: nat
    const jid: string
    const store: SignalProtocolStore
    var preKeys: seq<PreKeyRef>
    var session: SessionCipher?

    constructor(jid: string, id: nat, store: SignalProtocolStore)
      ensures this.jid == jid && this.id == id && this.store == store
      ensures preKeys == [] && session == null
    {
      this.jid := jid;
      this.id := id;
      this.store := store;
      preKeys := [];
      session := null;
    }

    /** `this.address.toString()` */
    function Address(): string {
      AddressText(jid, id)
    }

    /** `getRandomPreKey()`: an element of `preKeys`, undefined exactly when `preKeys` is empty. */
    function RandomPreKey(r: real): (pk: Option<PreKeyRef>)
      requires 0.0 <= r < 1.0
      reads this
      ensures pk.None? <==> |preKeys| == 0
      ensures pk.Some? ==> exists i :: 0 <= i < |preKeys| && pk.value == preKeys[i]
    {
      var i := RandomInRange(0, |preKeys| - 1, r);
      // this.preKeys[i] past the end is undefined
      if 0 <= i < |preKeys| then Some(preKeys[i]) else None
    }

    /**
     * `getBundle()` once the transport has replied: the reply's prekeys are appended to
     * `preKeys` (never reset), then one is picked from the whole accumulated list.
     */
    method GetBundle(reply: BundleReply, r: real) returns (b: FetchedBundle)
      requires 0.0 <= r < 1.0
      modifies this`preKeys
      ensures preKeys == old(preKeys) + reply.preKeys
      ensures b.spk == reply.spk && b.ik == reply.ik
      ensures b.pk == RandomPreKey(r)
      ensures b.pk.None? <==> old(preKeys) == [] && reply.preKeys == []
    {
      var k := 0;
      while k < |reply.preKeys|
        invariant 0 <= k <= |reply.preKeys|
        invariant preKeys == old(preKeys) + reply.preKeys[..k]
      {
        preKeys := preKeys + [reply.preKeys[k]];
        k := k + 1;
      }
      assert reply.preKeys[..k] == reply.preKeys;
      b := FetchedBundle(RandomPreKey(r), reply.spk, reply.ik);
    }

    /**
     * `initSession()`: fetch a bundle and build the record for processPreKey. Reading
     * `pk.id` of an undefined pick throws. The registration id passed is the device id.
     */
    method InitSession(reply: BundleReply, r: real) returns (res: Result<PreKeyBundle>)
      requires 0.0 <= r < 1.0
      modifies this`preKeys
      ensures preKeys == old(preKeys) + reply.preKeys
      ensures res.Err? <==> preKeys == []
      ensures res.Ok? ==>
        && res.value.registrationId == id && res.value.identityKey == reply.ik
        && res.value.signedPreKey == reply.spk && Some(res.value.preKey) == RandomPreKey(r)
    {
      var b := GetBundle(reply, r);
      if b.pk.None? {
        return Err("TypeError: Cannot read property 'id' of undefined");
      }
      res := Ok(PreKeyBundle(id, b.ik, b.spk, b.pk.value));
    }

    /** `getSession()`: builds the SessionCipher on first use and returns the cached one afterwards. */
    method GetSession() returns (c: SessionCipher)
      modifies this`session
      ensures old(session) != null ==> c == old(session) && session == old(session)
      ensures old(session) == null ==> fresh(c) && c.address == Address() && session == c
    {
      if session == null {
        session := new SessionCipher(Address());
      }
      c := session;
    }

    /**
     * `encrypt(plainText)`: initSession runs only when the store holds no session for this
     * address; the result's preKey flag is `type === 3` and its deviceId is this device's id.
     * `reply` is the transport's bundle reply, `cipher` what session.encrypt yields.
     * `bundle` is what was handed to processPreKey, if initSession got that far. The session
     * record and identity that processPreKey and session.encrypt write into the store belong
     * to libsignal and are not modelled, so the store is left as it was.
     */
    method Encrypt(reply: BundleReply, r: real, cipher: Result<Ciphertext>)
      returns (res: Result<EncryptedKey>, bundle: Option<PreKeyBundle>)
      requires 0.0 <= r < 1.0
      modifies this
      ensures old(store.HasSession(JsString(Address()))) ==> preKeys == old(preKeys) && bundle.None?
      ensures !old(store.HasSession(JsString(Address()))) ==>
        preKeys == old(preKeys) + reply.preKeys && (bundle.Some? <==> preKeys != [])
      ensures bundle.Some? ==> bundle.value.registrationId == id && bundle.value.signedPreKey == reply.spk
      ensures var ready := old(store.HasSession(JsString(Address()))) || bundle.Some?;
        && (res.Ok? <==> ready && cipher.Ok?)
        && (res.Ok? ==> res.value == EncryptedKey(cipher.value.msgType == 3, cipher.value, id))
        && (ready ==> session != null && (old(session) != null ==> session == old(session)))
        && (!ready ==> session == old(session))
    {
      bundle := None;
      if !store.HasSession(JsString(Address())) {
        var init := InitSession(reply, r);
        if init.Err? {
          return Err(init.message), None;
        }
        bundle := Some(init.value);
      }
      var s := GetSession();
      if cipher.Err? {
        return Err(cipher.message), bundle;
      }
      res := Ok(EncryptedKey(cipher.value.msgType == 3, cipher.value, id));
    }

    /**
     * `decrypt(cipherText, preKey)`: a truthy flag selects decryptPreKeyWhisperMessage,
     * anything else decryptWhisperMessage; `plain` is what that call yields.
     */
    method Decrypt(preKey: JsValue, plain: Result<seq<bv8>>) returns (path: DecryptPath, res: Result<seq<bv8>>)
      ensures path == PreKeyWhisperMessage <==> preKey.Truthy()
      ensures res == plain
    {
      var cipher := new SessionCipher(Address());
      if preKey.Truthy() {
        path := PreKeyWhisperMessage;
      } else {
        path := WhisperMessage;
      }
      res := plain;
    }
  }
}
