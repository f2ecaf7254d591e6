/**
 * Peer (src/omemo.js): the devices of one contact and the account's own devices,
 * kept in two sparse arrays indexed by device id (maps here), and the multi-device
 * encryption fan-out over them.
 */
module Peers {
  import opened Wrappers
  import opened JsValues
  import opened KeyStore
  import opened Devices

  /** The least element of a non-empty set of ids. */
  function Least(s: set<nat>): (m: nat)
    requires s != {}
    ensures m in s && forall y :: y in s ==> m <= y
  {
    LeastExists(s);
    var m :| m in s && forall y :: y in s ==> m <= y;
    m
  }

  lemma LeastExists(s: set<nat>)
    requires s != {}
    ensures exists m :: m in s && forall y :: y in s ==> m <= y
  {
    var m := MinOf(s);
  }

  /** A least element, picked without regard to how it is computed. */
  ghost function MinOf(s: set<nat>): (m: nat)
    requires s != {}
    ensures m in s && forall y :: y in s ==> m <= y
    decreases |s|
  {
    var x :| x in s;
    if s == {x} then x
    else
      var r := MinOf(s - {x});
      assert forall y :: y in s ==> y == x || y in s - {x};
      if x <= r then x else r
  }

  /**
   * The order in which `for (let id in array)` visits the ids of a sparse array:
   * ascending, each id once.
   */
  function Ascending(s: set<nat>): (ids: seq<nat>)
    ensures |ids| == |s|
    ensures forall i :: 0 <= i < |ids| ==> ids[i] in s
    ensures forall x :: x in s ==> x in ids
    decreases |s|
  {
    if s == {} then []
    else
      var m := Least(s);
      [m] + Ascending(s - {m})
  }

  /** The id visited at position i is smaller than the one visited at any later position j. */
  lemma {:induction false} AscendingOrdered(s: set<nat>, i: nat, j: nat)
    requires i < j < |Ascending(s)|
    ensures Ascending(s)[i] < Ascending(s)[j]
    decreases |s|
  {
    var m := Least(s);
    var rest := Ascending(s - {m});
    assert Ascending(s) == [m] + rest;
    if i == 0 {
      assert rest[j - 1] in s - {m};
    } else {
      AscendingOrdered(s - {m}, i - 1, j - 1);
    }
  }

  /** The visit order is strictly ascending, so no id is visited twice. */
  lemma AscendingSorted(s: set<nat>)
    ensures forall i, j :: 0 <= i < j < |Ascending(s)| ==> Ascending(s)[i] < Ascending(s)[j]
  {
    forall i, j | 0 <= i < j < |Ascending(s)|
      ensures Ascending(s)[i] < Ascending(s)[j]
    {
      AscendingOrdered(s, i, j);
    }
  }

  /** Largest array index plus one: ids at or above it are properties that do not count in `length`. */
  const ArrayIndexLimit: nat := 0xFFFF_FFFF

  /** `!array.length` for a sparse array whose ids are the given keys. */
  predicate NoArrayIndex(ids: set<nat>) {
    forall k :: k in ids ==> k >= ArrayIndexLimit
  }

  /** The Devices a sequence of ids names in a map, in order. */
  function Lookups(ids: seq<nat>, m: map<nat, Device>): (ds: seq<Device>)
    requires forall i :: 0 <= i < |ids| ==> ids[i] in m
    ensures |ds| == |ids| && forall i :: 0 <= i < |ids| ==> ds[i] == m[ids[i]]
  {
    seq(|ids|, i requires 0 <= i < |ids| => m[ids[i]])
  }

  lemma LookupsAppend(ids: seq<nat>, id: nat, m: map<nat, Device>)
    requires forall i :: 0 <= i < |ids| ==> ids[i] in m
    requires id in m
    ensures Lookups(ids + [id], m) == Lookups(ids, m) + [m[id]]
  {
  }

  /** Visiting one more id pushes one more promise, from that id's Device. */
  lemma PushStep(front: seq<Device>, ids: seq<nat>, id: nat, m: map<nat, Device>, wrap: (Device, nat) -> Wrap)
    requires forall i :: 0 <= i < |ids| ==> ids[i] in m
    requires id in m
    ensures Wraps(front + Lookups(ids + [id], m), wrap)
         == Wraps(front + Lookups(ids, m), wrap) + [wrap(m[id], |front| + |ids|)]
  {
    LookupsAppend(ids, id, m);
    assert front + Lookups(ids + [id], m) == (front + Lookups(ids, m)) + [m[id]];
    WrapsAppend(front + Lookups(ids, m), m[id], wrap);
  }

  /** When a loop visits every id of `s` and finds each in `m`, every id of `s` is in `m`. */
  lemma EveryIdVisited(ids: seq<nat>, s: set<nat>, m: map<nat, Device>)
    requires forall x :: x in s ==> x in ids
    requires forall i :: 0 <= i < |ids| ==> ids[i] in m
    ensures forall x :: x in s ==> x in m
  {
  }

  /** The promises pushed for a sequence of targets: the i-th settles as `wrap(ts[i], i)`. */
  function Wraps(ts: seq<Device>, wrap: (Device, nat) -> Wrap): (ws: seq<Wrap>)
    ensures |ws| == |ts| && forall i :: 0 <= i < |ts| ==> ws[i] == wrap(ts[i], i)
  {
    seq(|ts|, i requires 0 <= i < |ts| => wrap(ts[i], i))
  }

  lemma WrapsAppend(ts: seq<Device>, d: Device, wrap: (Device, nat) -> Wrap)
    ensures Wraps(ts + [d], wrap) == Wraps(ts, wrap) + [wrap(d, |ts|)]
  {
    assert forall i :: 0 <= i < |ts| ==> (ts + [d])[i] == ts[i];
  }

  /** The ids a device list (as getUserDevices parses it) names; `null` names none. */
  function ListedIds(list: Option<seq<nat>>): set<nat> {
    if list.None? then {} else set i | i in list.value
  }

  /** What `utils.AES.encrypt(message)` resolves with. */
  datatype AesOutput = AesOutput(keydata: seq<bv8>, iv: seq<bv8>, payload: seq<bv8>)

  /** How one `device.encrypt(keydata)` promise settles: rejected, or resolved (with null or a key). */
  datatype Wrap = WrapRejected | WrapResolved(key: Option<EncryptedKey>)

  /** How Peer.encrypt settles: rejected, or `{keys, iv, payload}`. */
  datatype FanOut = FanOutRejected | FanOutResolved(keys: seq<EncryptedKey>, iv: seq<bv8>, payload: seq<bv8>)

  /** `Promise.all(promises)`: rejected if any promise is, otherwise every value in order. */
  function SettleAll(ws: seq<Wrap>): Option<seq<Option<EncryptedKey>>> {
    if exists i :: 0 <= i < |ws| && ws[i].WrapRejected? then None
    else Some(seq(|ws|, i requires 0 <= i < |ws| => ws[i].key))
  }

  /** `keys.filter(key => key !== null)` */
  function NonNull(ks: seq<Option<EncryptedKey>>): (r: seq<EncryptedKey>)
    ensures |r| <= |ks|
    ensures forall x :: x in r <==> Some(x) in ks
  {
    if ks == [] then []
    else (if ks[0].Some? then [ks[0].value] else []) + NonNull(ks[1..])
  }

  /** The number of null entries. */
  function NullCount(ks: seq<Option<EncryptedKey>>): nat {
    if ks == [] then 0 else (if ks[0].None? then 1 else 0) + NullCount(ks[1..])
  }

  /** Filtering nulls out of N results with K nulls leaves exactly N - K keys. */
  lemma {:induction false} NonNullLength(ks: seq<Option<EncryptedKey>>)
    ensures |NonNull(ks)| == |ks| - NullCount(ks)
  {
    if ks != [] {
      NonNullLength(ks[1..]);
    }
  }

  /** With no null results the filter keeps every key, in order. */
  lemma {:induction false} NonNullKeepsAll(ks: seq<Option<EncryptedKey>>)
    requires forall i :: 0 <= i < |ks| ==> ks[i].Some?
    ensures NonNull(ks) == seq(|ks|, i requires 0 <= i < |ks| => ks[i].value)
  {
    if ks != [] {
      NonNullKeepsAll(ks[1..]);
    }
  }

  /** The end of Peer.encrypt: Promise.all over the wraps, the null filter, the one AES output. */
  function Settle(ws: seq<Wrap>, aes: AesOutput): (out: FanOut)
    ensures out.FanOutRejected? <==> exists i :: 0 <= i < |ws| && ws[i].WrapRejected?
    ensures out.FanOutResolved? ==> out.iv == aes.iv && out.payload == aes.payload
    ensures out.FanOutResolved? ==> forall k :: k in out.keys <==> exists i :: 0 <= i < |ws| && ws[i] == WrapResolved(Some(k))
  {
    match SettleAll(ws)
    case None => FanOutRejected
    case Some(ks) =>
      assert forall k :: Some(k) in ks <==> exists i :: 0 <= i < |ws| && ws[i] == WrapResolved(Some(k)) by {
        forall k ensures Some(k) in ks <==> exists i :: 0 <= i < |ws| && ws[i] == WrapResolved(Some(k)) {
          if Some(k) in ks {
            var i :| 0 <= i < |ks| && ks[i] == Some(k);
            assert ws[i] == WrapResolved(Some(k));
          }
          if exists i :: 0 <= i < |ws| && ws[i] == WrapResolved(Some(k)) {
            var i :| 0 <= i < |ws| && ws[i] == WrapResolved(Some(k));
            assert ks[i] == Some(k);
          }
        }
      }
      FanOutResolved(NonNull(ks), aes.iv, aes.payload)
  }

  /** When every wrap resolves to a key, the fan-out yields one key per promise, in order. */
  lemma AllWrapsYieldAllKeys(ws: seq<Wrap>, aes: AesOutput)
    requires forall i :: 0 <= i < |ws| ==> ws[i].WrapResolved? && ws[i].key.Some?
    ensures Settle(ws, aes) == FanOutResolved(seq(|ws|, i requires 0 <= i < |ws| => ws[i].key.value), aes.iv, aes.payload)
  {
    var ks := seq(|ws|, i requires 0 <= i < |ws| => ws[i].key);
    assert SettleAll(ws) == Some(ks);
    NonNullKeepsAll(ks);
  }

  /**
   * The second forEach of `encrypt`: for each own device id, the Device the contact's map
   * holds under that id wraps the key. None when that lookup finds nothing (a TypeError).
   */
  method PushOwnWraps(promises: seq<Wrap>, ghost front: seq<Device>, own: seq<nat>,
                      devices: map<nat, Device>, wrap: (Device, nat) -> Wrap)
    returns (res: Option<seq<Wrap>>)
    requires promises == Wraps(front, wrap)
    ensures res.None? <==> exists i :: 0 <= i < |own| && own[i] !in devices
    ensures res.Some? ==> res.value == Wraps(front + Lookups(own, devices), wrap)
  {
    var pushed := promises;
    for n := 0 to |own|
      invariant forall i :: 0 <= i < n ==> own[i] in devices
      invariant pushed == Wraps(front + Lookups(own[..n], devices), wrap)
    {
      if own[n] !in devices {
        // this.devices[device] is undefined: the TypeError rejects encrypt
        return None;
      }
      var d := devices[own[n]];
      assert own[..n + 1] == own[..n] + [own[n]];
      PushStep(front, own[..n], own[n], devices, wrap);
      pushed := pushed + [wrap(d, |pushed|)];
    }
    assert own[..|own|] == own;
    res := Some(pushed);
  }

  class Peer {
    const jid: string
    const accountJid: string
    const store: SignalProtocolStore
    var devices: map<nat, Device>
    var ownDevices: map<nat, Device>

    /** Every entry is the Device of its own id, for the contact's jid or the account's jid. */
    ghost predicate Valid()
      reads this
    {
      && (forall k :: k in devices ==> devices[k].id == k && devices[k].jid == jid && devices[k].store == store)
      && (forall k :: k in ownDevices ==>
            ownDevices[k].id == k && ownDevices[k].jid == accountJid && ownDevices[k].store == store)
    }

    /** `initialize`: both maps start empty and are filled by updateDevices and updateOwnDevices. */
    constructor(jid: string, accountJid: string, store: SignalProtocolStore,
                devicesAttr: Option<seq<nat>>, accountDevices: Option<seq<nat>>)
      ensures Valid()
      ensures this.jid == jid && this.accountJid == accountJid && this.store == store
      ensures devices.Keys == ListedIds(devicesAttr) && ownDevices.Keys == ListedIds(accountDevices)
      ensures forall k :: k in devices ==> fresh(devices[k])
      ensures forall k :: k in ownDevices ==> fresh(ownDevices[k])
    {
      this.jid := jid;
      this.accountJid := accountJid;
      this.store := store;
      devices := map[];
      ownDevices := map[];
      new;
      UpdateDevices(devicesAttr);
      UpdateOwnDevices(accountDevices);
    }

    /** `getDevice(id)`: creates the Device only when the id is absent; otherwise returns the one there. */
    method GetDevice(id: nat) returns (d: Device)
      requires Valid()
      modifies this`devices
      ensures Valid()
      ensures id in old(devices) ==> devices == old(devices) && d == old(devices)[id]
      ensures id !in old(devices) ==> devices == old(devices)[id := d] && fresh(d)
                                      && d.preKeys == [] && d.session == null
      ensures d.id == id && d.jid == jid && d.store == store
    {
      if id !in devices {
        var created := new Device(jid, id, store);
        devices := devices[id := created];
      }
      d := devices[id];
    }

    /** `getOwnDevice(id)`: as getDevice, on the own-devices map and with the account's jid. */
    method GetOwnDevice(id: nat) returns (d: Device)
      requires Valid()
      modifies this`ownDevices
      ensures Valid()
      ensures id in old(ownDevices) ==> ownDevices == old(ownDevices) && d == old(ownDevices)[id]
      ensures id !in old(ownDevices) ==> ownDevices == old(ownDevices)[id := d] && fresh(d)
                                         && d.preKeys == [] && d.session == null
      ensures d.id == id && d.jid == accountJid && d.store == store
    {
      if id !in ownDevices {
        var created := new Device(accountJid, id, store);
        ownDevices := ownDevices[id := created];
      }
      d := ownDevices[id];
    }

    /** `updateDevices(list)`: nothing for null; otherwise adds the missing ids and keeps every existing Device. */
    method UpdateDevices(list: Option<seq<nat>>)
      requires Valid()
      modifies this`devices
      ensures Valid()
      ensures devices.Keys == old(devices).Keys + ListedIds(list)
      ensures forall k :: k in old(devices) ==> devices[k] == old(devices)[k]
      ensures forall k :: k in devices && k !in old(devices) ==>
        fresh(devices[k]) && devices[k].preKeys == [] && devices[k].session == null
    {
      if list.None? {
        return;
      }
      var ids := list.value;
      for n := 0 to |ids|
        invariant Valid()
        invariant devices.Keys == old(devices).Keys + set i | i in ids[..n]
        invariant forall k :: k in old(devices) ==> devices[k] == old(devices)[k]
        invariant forall k :: k in devices && k !in old(devices) ==>
          fresh(devices[k]) && devices[k].preKeys == [] && devices[k].session == null
      {
        assert ids[..n + 1] == ids[..n] + [ids[n]];
        var _ := GetDevice(ids[n]);
      }
      assert ids[..|ids|] == ids;
    }

    /** `updateOwnDevices(list)`: as updateDevices, on the own-devices map. */
    method UpdateOwnDevices(list: Option<seq<nat>>)
      requires Valid()
      modifies this`ownDevices
      ensures Valid()
      ensures ownDevices.Keys == old(ownDevices).Keys + ListedIds(list)
      ensures forall k :: k in old(ownDevices) ==> ownDevices[k] == old(ownDevices)[k]
      ensures forall k :: k in ownDevices && k !in old(ownDevices) ==>
        fresh(ownDevices[k]) && ownDevices[k].preKeys == [] && ownDevices[k].session == null
    {
      if list.None? {
        return;
      }
      var ids := list.value;
      for n := 0 to |ids|
        invariant Valid()
        invariant ownDevices.Keys == old(ownDevices).Keys + set i | i in ids[..n]
        invariant forall k :: k in old(ownDevices) ==> ownDevices[k] == old(ownDevices)[k]
        invariant forall k :: k in ownDevices && k !in old(ownDevices) ==>
          fresh(ownDevices[k]) && ownDevices[k].preKeys == [] && ownDevices[k].session == null
      {
        assert ids[..n + 1] == ids[..n] + [ids[n]];
        var _ := GetOwnDevice(ids[n]);
      }
      assert ids[..|ids|] == ids;
    }

    /** The contact-device ids the first loop visits: none when `devices.length` is 0 (discovery branch). */
    function ContactIds(): (ids: seq<nat>)
      reads this
      ensures forall i :: 0 <= i < |ids| ==> ids[i] in devices
      ensures ids == [] <==> NoArrayIndex(devices.Keys)
      ensures !NoArrayIndex(devices.Keys) ==> |ids| == |devices| && forall k :: k in devices ==> k in ids
    {
      if NoArrayIndex(devices.Keys) then [] else Ascending(devices.Keys)
    }

    /**
     * The Device each pushed promise comes from, in push order: the contact loop, then the
     * own-devices loop, which looks its ids up in `devices`. None when such a lookup finds
     * no Device, which throws a TypeError.
     */
    function FanOutTargets(): (t: Option<seq<Device>>)
      reads this
      ensures t.Some? ==> |t.value| == |ContactIds()| + |ownDevices|
    {
      var cids := ContactIds();
      var own := Ascending(ownDevices.Keys);
      if exists o :: o in ownDevices && o !in devices then None
      else Some(Lookups(cids, devices) + Lookups(own, devices))
    }

    /** The first forEach of `encrypt`: one promise per contact device, in visit order. */
    method PushContactWraps(wrap: (Device, nat) -> Wrap) returns (promises: seq<Wrap>)
      ensures promises == Wraps(Lookups(ContactIds(), devices), wrap)
    {
      promises := [];
      ghost var targets: seq<Device> := [];
      var cids := ContactIds();
      for n := 0 to |cids|
        invariant targets == Lookups(cids[..n], devices)
        invariant promises == Wraps(targets, wrap)
      {
        var d := devices[cids[n]];
        WrapsAppend(targets, d, wrap);
        assert cids[..n + 1] == cids[..n] + [cids[n]];
        LookupsAppend(cids[..n], cids[n], devices);
        promises := promises + [wrap(d, |promises|)];
        targets := targets + [d];
      }
      assert cids[..|cids|] == cids;
    }

    /**
     * `encrypt(message)`: one AES encryption, then one `device.encrypt(keydata)` per target
     * in push order, then Promise.all and the null filter. `wrap(d, i)` is how the i-th
     * promise, issued on Device `d`, settles. `discovery` says whether requestUserDevices
     * was issued; the promises its callback pushes later are not awaited.
     */
    method Encrypt(aes: Result<AesOutput>, wrap: (Device, nat) -> Wrap) returns (out: FanOut, discovery: bool)
      ensures aes.Err? ==> out == FanOutRejected && !discovery
      ensures aes.Ok? ==> (discovery <==> NoArrayIndex(devices.Keys))
      ensures aes.Ok? && FanOutTargets().None? ==> out == FanOutRejected
      ensures aes.Ok? && FanOutTargets().Some? ==> out == Settle(Wraps(FanOutTargets().value, wrap), aes.value)
      ensures out.FanOutResolved? ==> aes.Ok? && out.iv == aes.value.iv && out.payload == aes.value.payload
    {
      if aes.Err? {
        return FanOutRejected, false;
      }
      var promises: seq<Wrap> := [];
      discovery := NoArrayIndex(devices.Keys);
      if !discovery {
        promises := PushContactWraps(wrap);
      }
      var own := Ascending(ownDevices.Keys);
      var all := PushOwnWraps(promises, Lookups(ContactIds(), devices), own, devices, wrap);
      if all.Some? {
        EveryIdVisited(own, ownDevices.Keys, devices);
      }
      if all.None? {
        ghost var i :| 0 <= i < |own| && own[i] !in devices;
        assert own[i] in ownDevices;
        return FanOutRejected, discovery;
      }
      assert FanOutTargets() == Some(Lookups(ContactIds(), devices) + Lookups(own, devices));
      out := Settle(all.value, aes.value);
    }

    /** `decrypt(deviceId, ciphertext, preKey)`: getDevice, then that Device's decrypt dispatch. */
    method Decrypt(deviceId: nat, preKey: JsValue, plain: Result<seq<bv8>>) returns (path: DecryptPath, res: Result<seq<bv8>>)
      requires Valid()
      modifies this`devices
      ensures Valid()
      ensures devices.Keys == old(devices).Keys + {deviceId}
      ensures forall k :: k in old(devices) ==> devices[k] == old(devices)[k]
      ensures path == PreKeyWhisperMessage <==> preKey.Truthy()
      ensures res == plain
    {
      var d := GetDevice(deviceId);
      path, res := d.Decrypt(preKey, plain);
    }
  }

  /**
   * The own-devices loop reaches only Devices of the contact: every promise of the fan-out
   * comes from the contact's map, so when the contact is not the account itself no Device
   * in `ownDevices` is ever asked to wrap the key.
   */
  lemma FanOutNeverReachesOwnDevices(p: Peer)
    requires p.Valid() && p.FanOutTargets().Some?
    ensures forall i :: 0 <= i < |p.FanOutTargets().value| ==>
      p.FanOutTargets().value[i] in p.devices.Values && p.FanOutTargets().value[i].jid == p.jid
    ensures p.jid != p.accountJid ==>
      forall i, k :: 0 <= i < |p.FanOutTargets().value| && k in p.ownDevices ==>
        p.FanOutTargets().value[i] != p.ownDevices[k]
  {
    var t := p.FanOutTargets().value;
    var cids := p.ContactIds();
    var own := Ascending(p.ownDevices.Keys);
    assert t == Lookups(cids, p.devices) + Lookups(own, p.devices);
    forall i | 0 <= i < |t|
      ensures t[i] in p.devices.Values && t[i].jid == p.jid
    {
      if i < |cids| {
        assert t[i] == p.devices[cids[i]];
      } else {
        assert t[i] == p.devices[own[i - |cids|]];
      }
    }
  }

  /** An own device id missing from the contact's map makes the whole fan-out reject. */
  lemma OwnIdMissingFromContactRejects(p: Peer, o: nat)
    requires p.Valid() && o in p.ownDevices && o !in p.devices
    ensures p.FanOutTargets().None?
  {
  }
}
