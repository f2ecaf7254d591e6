/**
 * Omemo (src/omemo.js): the per-account coordinator. It owns the store and the bundle,
 * keeps the account's device id, creates one Peer per contact jid on demand, routes
 * device-list notifications, and assembles the bundle it publishes. Transport calls
 * (publishDevice, publishBundle, addDevice) are represented by what the model hands them.
 */
module Coordinator {
  import opened Wrappers
  import opened JsValues
  import opened KeyStore
  import opened Devices
  import opened Peers
  import opened Bundles

  /** `Math.pow(2, 31) - 1` */
  const MaxDeviceId: int := 0x7FFF_FFFF

  /** `generateDeviceId()`: a device id in [1, 2^31 - 1], with the random number as `r`. */
  function GenerateDeviceId(r: real): (id: int)
    requires 0.0 <= r < 1.0
    ensures 1 <= id <= MaxDeviceId
  {
    RandomInRange(1, MaxDeviceId, r)
  }

  /** One `{id, key}` entry of the published `pks` list (before base64). */
  datatype PublishedPreKey = PublishedPreKey(id: nat, key: seq<bv8>)

  /** The record handed to the transport's publishBundle (before base64). */
  datatype PublishedBundle = PublishedBundle(spkId: nat, spkKey: seq<bv8>, spks: Option<seq<bv8>>,
                                             ik: JsValue, pks: seq<PublishedPreKey>)

  /** The forEach of `publish`: an entry for each key without a signature, in order. */
  function UnsignedPreKeys(pks: seq<GeneratedKey>): (r: seq<PublishedPreKey>)
    ensures |r| <= |pks|
  {
    if pks == [] then []
    else
      var last := pks[|pks| - 1];
      UnsignedPreKeys(pks[..|pks| - 1])
        + (if last.signature.None? then [PublishedPreKey(last.keyId, last.keyPair.pubKey)] else [])
  }

  /** An entry is published exactly for each key without a signature. */
  lemma {:induction false} UnsignedPreKeysMembers(pks: seq<GeneratedKey>, x: PublishedPreKey)
    ensures x in UnsignedPreKeys(pks) <==>
      exists i :: 0 <= i < |pks| && pks[i].signature.None? && x == PublishedPreKey(pks[i].keyId, pks[i].keyPair.pubKey)
  {
    if pks != [] {
      var front := pks[..|pks| - 1];
      UnsignedPreKeysMembers(front, x);
      assert forall i :: 0 <= i < |front| ==> pks[i] == front[i];
    }
  }

  /** When no key carries a signature, `publish` lists every key, in order, with its public key. */
  lemma {:induction false} UnsignedKeepsAll(pks: seq<GeneratedKey>)
    requires forall i :: 0 <= i < |pks| ==> pks[i].signature.None?
    ensures |UnsignedPreKeys(pks)| == |pks|
    ensures forall i :: 0 <= i < |pks| ==> UnsignedPreKeys(pks)[i] == PublishedPreKey(pks[i].keyId, pks[i].keyPair.pubKey)
  {
    if pks != [] {
      var front := pks[..|pks| - 1];
      UnsignedKeepsAll(front);
    }
  }

  /** Of the generated one-time keys, `publish` lists every one, in id order, with its public key. */
  lemma UnsignedOfGenerated(count: nat, generate: nat -> KeyPair)
    ensures UnsignedPreKeys(OneTimeKeys(count, generate))
         == seq(count, i requires 0 <= i < count => PublishedPreKey(i, generate(i).pubKey))
  {
    UnsignedKeepsAll(OneTimeKeys(count, generate));
  }

  lemma UnsignedDropsSigned(pks: seq<GeneratedKey>, signed: GeneratedKey)
    requires signed.signature.Some?
    ensures UnsignedPreKeys(pks + [signed]) == UnsignedPreKeys(pks)
  {
    assert (pks + [signed])[..|pks|] == pks;
  }

  /**
   * `publish(spk, ik, pks)`: nothing without a connection; otherwise the bundle record,
   * where reading `spk.keyId` of an undefined `spk` throws.
   */
  function Publish(spk: Option<GeneratedKey>, ik: JsValue, pks: seq<GeneratedKey>, connected: bool)
    : (r: Result<Option<PublishedBundle>>)
    ensures !connected ==> r == Ok(None)
    ensures connected ==> (r.Err? <==> spk.None?)
    ensures connected && spk.Some? ==> r.Ok? && r.value.Some?
    ensures r.Ok? && r.value.Some? ==> r.value.value.pks == UnsignedPreKeys(pks) && r.value.value.ik == ik
    ensures r.Ok? && r.value.Some? ==>
      && r.value.value.spkId == spk.value.keyId && r.value.value.spkKey == spk.value.keyPair.pubKey
      && r.value.value.spks == spk.value.signature
  {
    if !connected then Ok(None)
    else
      var prekeys := UnsignedPreKeys(pks);
      if spk.None? then Err("TypeError: Cannot read property 'keyId' of undefined")
      else Ok(Some(PublishedBundle(spk.value.keyId, spk.value.keyPair.pubKey, spk.value.signature, ik, prekeys)))
  }

  /** Which pubsub node an event concerns. */
  datatype Node = DevicesNode | BundlesNode | OtherNode

  /**
   * An inbound `<message>` as receiveMessage reads it: the bare sender jid, whether it
   * is a pubsub event, the items node, and the device list getUserDevices parses from it.
   */
  datatype Inbound = Inbound(from: string, pubsubEvent: bool, node: Node, devices: Option<seq<nat>>)

  /** What receiveMessage does: nothing, store the account's own list (and maybe publish the device id), or update a peer. */
  datatype Reaction = Ignored | OwnDevicesStored(publishDevice: bool) | PeerDevicesUpdated

  /** `list.find(d => d.id == id)` found nothing. */
  predicate Absent(list: seq<nat>, id: nat) {
    forall i :: 0 <= i < |list| ==> list[i] != id
  }

  class Omemo {
    const accountJid: string
    const store: SignalProtocolStore
    const bundle: Bundle
    var deviceId: nat
    var peers: map<string, Peer>
    /** The connection's `omemo.devices`: the account's own device list as last received. */
    var connectionDevices: Option<seq<nat>>

    /** Every peer is keyed by its own jid, shares the account's store, and is well formed. */
    ghost predicate Valid()
      reads this, store, peers.Values
    {
      && store.Valid() && bundle.store == store
      && forall j :: j in peers ==>
           peers[j].jid == j && peers[j].accountJid == accountJid && peers[j].store == store && peers[j].Valid()
    }

    /**
     * `_initialize`: keeps a truthy stored device id (0 stands for the default `""`) and
     * otherwise generates one; builds the store and the bundle. `identity` .. `signature`
     * are what KeyHelper yields for the bundle.
     */
    constructor(accountJid: string, storedDeviceId: nat, r: real, identity: KeyPair, registrationId: nat,
                count: nat, generate: nat -> KeyPair, signedPair: KeyPair, signature: seq<bv8>)
      requires 0.0 <= r < 1.0
      ensures Valid() && fresh(store) && fresh(bundle)
      ensures this.accountJid == accountJid && peers == map[] && connectionDevices.None?
      ensures storedDeviceId != 0 ==> deviceId == storedDeviceId
      ensures storedDeviceId == 0 ==> 1 <= deviceId <= MaxDeviceId
      ensures bundle.preKeys == OneTimeKeys(count, generate) + [GeneratedKey(1, signedPair, Some(signature))]
      ensures store.GetIdentityKeyPair() == KeyPairValue(identity)
    {
      this.accountJid := accountJid;
      deviceId := if storedDeviceId != 0 then storedDeviceId else GenerateDeviceId(r);
      peers := map[];
      var s := new SignalProtocolStore();
      store := s;
      bundle := new Bundle(s, identity, registrationId, count, generate, signedPair, signature);
      connectionDevices := None;
    }

    /**
     * `getPeer(jid)`: creates the Peer only when none is kept for `jid`. A new Peer starts with
     * no contact devices and the connection's own-device list.
     */
    method GetPeer(jid: string) returns (p: Peer)
      requires Valid()
      modifies this`peers
      ensures Valid()
      ensures jid in old(peers) ==> peers == old(peers) && p == old(peers)[jid]
      ensures jid !in old(peers) ==>
        && peers == old(peers)[jid := p] && fresh(p)
        && p.devices == map[] && p.ownDevices.Keys == ListedIds(connectionDevices)
      ensures p.jid == jid && p.accountJid == accountJid && p.store == store && p.Valid()
    {
      if jid !in peers {
        var created := new Peer(jid, accountJid, store, None, connectionDevices);
        peers := peers[jid := created];
      }
      p := peers[jid];
    }

    /**
     * `receiveMessage(message)` for device-list events: the account's own list replaces the
     * connection's and asks for publishDevice exactly when it lacks this device's id (a null
     * list throws at `.find`); a contact's list goes to that contact's Peer. Every other
     * message is left alone.
     */
    method ReceiveMessage(msg: Inbound) returns (r: Result<Reaction>)
      requires Valid()
      modifies this`peers, this`connectionDevices, if msg.from in peers then {peers[msg.from]} else {}
      ensures Valid()
      ensures !(msg.pubsubEvent && msg.node == DevicesNode) ==>
        r == Ok(Ignored) && peers == old(peers) && connectionDevices == old(connectionDevices)
      ensures msg.pubsubEvent && msg.node == DevicesNode && msg.from == accountJid ==>
        && connectionDevices == msg.devices && peers == old(peers)
        && (msg.devices.None? ==> r.Err?)
        && (msg.devices.Some? ==> r == Ok(OwnDevicesStored(Absent(msg.devices.value, deviceId))))
      ensures msg.pubsubEvent && msg.node == DevicesNode && msg.from != accountJid ==>
        && r == Ok(PeerDevicesUpdated) && connectionDevices == old(connectionDevices)
        && peers.Keys == old(peers).Keys + {msg.from}
        && (forall j :: j in old(peers) ==> peers[j] == old(peers)[j])
        && (msg.from in old(peers) ==>
              && peers[msg.from].devices.Keys == old(peers[msg.from].devices).Keys + ListedIds(msg.devices)
              && (forall k :: k in old(peers[msg.from].devices) ==>
                    peers[msg.from].devices[k] == old(peers[msg.from].devices[k]))
              && peers[msg.from].ownDevices == old(peers[msg.from].ownDevices))
        && (msg.from !in old(peers) ==> peers[msg.from].devices.Keys == ListedIds(msg.devices))
      // only a contact's list changes a Peer, and only that contact's map; every other Peer is as it was
      ensures forall j :: j in old(peers) && (j != msg.from || msg.from == accountJid || !(msg.pubsubEvent && msg.node == DevicesNode)) ==>
        peers[j].devices == old(peers[j].devices) && peers[j].ownDevices == old(peers[j].ownDevices)
    {
      if !(msg.pubsubEvent && msg.node == DevicesNode) {
        // the bundles node and encrypted messages have empty handlers
        return Ok(Ignored);
      }
      if msg.from == accountJid {
        connectionDevices := msg.devices;
        if msg.devices.None? {
          return Err("TypeError: Cannot read property 'find' of null");
        }
        var publish := true;
        for i := 0 to |msg.devices.value|
          invariant publish <==> Absent(msg.devices.value[..i], deviceId)
        {
          if msg.devices.value[i] == deviceId {
            publish := false;
          }
        }
        assert msg.devices.value[..|msg.devices.value|] == msg.devices.value;
        return Ok(OwnDevicesStored(publish));
      }
      var p := GetPeer(msg.from);
      p.UpdateDevices(msg.devices);
      r := Ok(PeerDevicesUpdated);
    }

    /**
     * `publishBundle()`: the first signed key of the bundle, the stored identity key pair's
     * `pubKey`, and all the bundle's keys go to publish. An undefined identity throws at
     * `ik.pubKey`, before the connection is looked at.
     */
    function PublishBundle(connected: bool): (r: Result<Option<PublishedBundle>>)
      reads this, bundle, store
      ensures store.GetIdentityKeyPair().Nullish() ==> r.Err?
      ensures !store.GetIdentityKeyPair().Nullish() ==>
        r == Publish(FirstSigned(bundle.preKeys), Property(store.GetIdentityKeyPair(), "pubKey"), bundle.preKeys, connected)
    {
      var spk := FirstSigned(bundle.preKeys);
      var ik := store.GetIdentityKeyPair();
      if ik.Nullish() then Err("TypeError: Cannot read property 'pubKey' of undefined")
      else Publish(spk, Property(ik, "pubKey"), bundle.preKeys, connected)
    }
  }

  /** `publish` over the generated keys: the signed prekey first found, every one-time prekey listed. */
  lemma PublishOfGenerated(count: nat, generate: nat -> KeyPair, signedPair: KeyPair, signature: seq<bv8>, ik: JsValue)
    ensures var keys := OneTimeKeys(count, generate) + [GeneratedKey(1, signedPair, Some(signature))];
      Publish(FirstSigned(keys), ik, keys, true)
        == Ok(Some(PublishedBundle(1, signedPair.pubKey, Some(signature), ik,
                                   seq(count, i requires 0 <= i < count => PublishedPreKey(i, generate(i).pubKey)))))
  {
    var signed := GeneratedKey(1, signedPair, Some(signature));
    FirstSignedOfGenerated(count, generate, signed);
    UnsignedDropsSigned(OneTimeKeys(count, generate), signed);
    UnsignedOfGenerated(count, generate);
  }

  /**
   * Once the bundle's keys are generated, a connected publishBundle hands over the signed
   * prekey (id 1, its public key and signature), the identity's public key, and exactly the
   * one-time prekeys 0 .. count - 1 with their public keys; without a connection it does nothing.
   */
  lemma PublishAfterGeneration(o: Omemo, identity: KeyPair, count: nat, generate: nat -> KeyPair,
                               signedPair: KeyPair, signature: seq<bv8>)
    requires o.bundle.preKeys == OneTimeKeys(count, generate) + [GeneratedKey(1, signedPair, Some(signature))]
    requires o.store.GetIdentityKeyPair() == KeyPairValue(identity)
    ensures o.PublishBundle(true) == Ok(Some(PublishedBundle(1, signedPair.pubKey, Some(signature), JsBuffer(identity.pubKey),
                                           seq(count, i requires 0 <= i < count => PublishedPreKey(i, generate(i).pubKey)))))
    ensures o.PublishBundle(false) == Ok(None)
  {
    PublishOfGenerated(count, generate, signedPair, signature, JsBuffer(identity.pubKey));
    assert Property(KeyPairValue(identity), "pubKey") == JsBuffer(identity.pubKey);
  }
}
