# xabber-web OMEMO layer and application core, modelled in Dafny

This project models the OMEMO end-to-end encryption layer of the Xabber web client (`src/omemo.js`)
and the small pieces of the application object it depends on (`src/core.js`).

## What is modelled

- **The key store** (`SignalProtocolStore`, keystore.dfy). This is the dictionary behind libsignal. The
  model keeps its null/undefined guards, its key namespaces (`identityKey…`, `25519KeypreKey…`,
  `25519KeysignedKey…`, `session…`), the key-pair copies that `loadPreKey`/`loadSignedPreKey` return,
  and the prefix sweep of `removeAllSessions`.
- **A contact's devices** (`Device`, devices.dfy): the random prekey pick, the accumulation of bundle
  prekeys, the bundle handed to `processPreKey`, the cached `SessionCipher`, and the encrypt/decrypt
  dispatch.
- **A contact** (`Peer`, peers.dfy): the two sparse device maps and the `encrypt` fan-out, from the
  promises pushed in for-in order, through `Promise.all`, to the null filter.
- **The account's bundle** (`Bundle`, bundle.dfy): the identity, the one-time prekeys `0 .. count-1`,
  and the signed prekey `1`, each written to the store.
- **The stanza** (stanza.dfy): the XML that `createEncryptedStanza` builds.
- **The coordinator** (`Omemo`, coordinator.dfy): device-id generation, `getPeer`, `receiveMessage`
  routing of device-list events, and `publish`/`publishBundle`.
- **The application object** (`Xabber`, urlparams.dfy and core.dfy): `fetchURLParams`,
  `getStorageName`, `cleanUpStorage`, the localStorage part of `onQuit`, `configure`'s log-level and
  TURN-list normalisation, and the level gate of `error`/`warn`/`info`/`debug`.

### Representation choices

- JavaScript values are a datatype `JsValue`. The model covers truthiness, `String(v)` as used by `+`
  and by property keys, and `a >= b` on numbers, strings and objects.
- Numbers are integers.
- Store keys are `String(key)`.
- Libraries and the environment arrive as parameters:
  - libsignal's KeyHelper results, SessionCipher outcomes and AES output;
  - the outcome of each `device.encrypt` promise;
  - `Math.random()` as a real `r` with `0 <= r < 1`;
  - `location.href`, and whether the browser is mobile;
  - the Strophe namespace.
- For-in enumeration of the sparse device arrays visits ids in ascending order. That is the order
  JavaScript uses for array-index keys.

### Behaviour of the code that the model keeps as written

- **Own-devices loop uses the contact's map.** The loop runs over `own_devices` but indexes
  `this.devices[device]` (src/omemo.js:65-67). So every promise comes from a contact Device
  (`FanOutNeverReachesOwnDevices`). An own id that the contact lacks throws, and the whole encrypt
  rejects (`OwnIdMissingFromContactRejects`).
- **One failure fails the fan-out.** `Promise.all` rejects the whole fan-out when any single device
  fails. No per-device failure is skipped. The null filter removes nothing, because `Device.encrypt`
  never resolves null.
- **Device discovery is lost.** When the contact has no device, the callback of `requestUserDevices`
  pushes its promises after `Promise.all` has already been taken. The model therefore pushes no
  contact promise in that case and reports the discovery request.
- **Identity keys use two different keys.** `isTrustedIdentity` and `loadIdentityKey` look up
  `'identityKey' + identifier`. `saveIdentity` writes `'identityKey' + address.getName()`. The model
  takes that name as a parameter.
- **An empty identifier reaches the local identity.** `'identityKey' + ''` is the fixed key that holds
  the account's own identity key pair. So `isTrustedIdentity`, `loadIdentityKey` and `saveIdentity`
  with an identifier (or address name) whose text is empty read or overwrite it (`FixedKeysMet`).
- **Session removal over-reaches.** `removeAllSessions` matches on a prefix, so removing `a@b` also
  removes the sessions of `a@b.c…` (`SessionPrefixCoversExtensions`).
- **The stanza is not what OMEMO expects, and is discarded.**
  - `<payload>` ends up under `<message>`, not under `<encrypted>`.
  - `<header>` gets no `sid`, because `this.device_id` is not a property of the Backbone model.
  - `createEncryptedStanza` returns nothing. The model returns the element it builds.
- **The registration id in a prekey bundle is the device id** (`Number(this.id)`).
- **A changed log level survives only if configured again.** `configure` looks up
  `LOG_LEVEL_<current LOG_LEVEL>`. So reconfiguring without a LOG_LEVEL setting, once the level is
  already a number, falls back to `LOG_LEVEL_ERROR`. A falsy threshold does the same.
- **`onQuit` removes keys of every ending.** It removes every key that starts with
  `STORAGE_NAME-STORAGE_VERSION`, whatever the storage-name ending.

## Model

| member | source | states |
|---|---|---|
| KeyStore.PreKeyKeyInjective | src/omemo.js:530-532 | distinct numeric key ids are stored under distinct prekey keys |
| KeyStore.NamespacesDisjoint | src/omemo.js:491-568 | prekey, signed-prekey, session and identity keys never collide |
| KeyStore.FixedKeysMet | src/omemo.js:454-519 | an identifier whose text is empty reaches the local identity pair's fixed key `identityKey`; no other namespace meets `identityKey` or `registrationId` |
| KeyStore.PreKeyKey | src/omemo.js:522-536 | definition: the dictionary key `'25519KeypreKey' + keyId` |
| KeyStore.SignedPreKeyKey | src/omemo.js:539-553 | definition: the dictionary key `'25519KeysignedKey' + keyId` |
| KeyStore.SessionKey | src/omemo.js:555-578 | definition: the dictionary key `'session' + identifier` |
| KeyStore.IdentityKeyKey | src/omemo.js:484-519 | definition: the dictionary key `'identityKey' + identifier` |
| KeyStore.SessionPrefixCoversExtensions | src/omemo.js:571-576 | the session prefix of `x` also prefixes the session keys of every `x + y` |
| KeyStore.KeyPairCopyRoundTrip | src/omemo.js:522-528 | the `{pubKey, privKey}` copy of a stored key pair equals the pair |
| KeyStore.KeyPairCopy | src/omemo.js:522-528 | definition: the `{pubKey, privKey}` object built from the stored value's two properties |
| KeyStore.WithoutPrefix | src/omemo.js:571-578 | definition: the dictionary without the keys that start with the prefix, every other entry unchanged |
| KeyStore.SignalProtocolStore.constructor | src/omemo.js:446-452 | the store starts empty |
| KeyStore.SignalProtocolStore.Get | src/omemo.js:468-476 | a nullish key throws; otherwise the stored value, or the default when absent |
| KeyStore.SignalProtocolStore.Put | src/omemo.js:462-466 | a nullish key or value throws and stores nothing; otherwise exactly that entry changes and reads back |
| KeyStore.SignalProtocolStore.Remove | src/omemo.js:478-482 | a nullish key throws; otherwise exactly that entry goes and reads back as the default |
| KeyStore.SignalProtocolStore.GetIdentityKeyPair | src/omemo.js:454-456 | the stored `identityKey`, or undefined |
| KeyStore.SignalProtocolStore.GetLocalRegistrationId | src/omemo.js:458-460 | the stored `registrationId`, or undefined |
| KeyStore.SignalProtocolStore.IsTrustedIdentity | src/omemo.js:484-496 | throws for a nullish identifier or a non-buffer key; trusts an unknown identifier; else compares binary texts |
| KeyStore.SignalProtocolStore.LoadIdentityKey | src/omemo.js:498-502 | throws for a nullish identifier; otherwise the value under `'identityKey' + identifier` |
| KeyStore.SignalProtocolStore.SaveIdentity | src/omemo.js:504-519 | a nullish identifier or key, or an identifier the address parser rejects, throws and stores nothing; otherwise writes under the address name, reports a change iff a truthy earlier key differs under `libsignal.toString`, and leaves the entry `isTrustedIdentity(identifier)` reads untouched unless the two keys coincide |
| KeyStore.SignalProtocolStore.LoadPreKey | src/omemo.js:522-528 | undefined when absent, else the key-pair copy |
| KeyStore.SignalProtocolStore.StorePreKey | src/omemo.js:530-532 | stores under the prekey key and loads back as the copy |
| KeyStore.SignalProtocolStore.RemovePreKey | src/omemo.js:534-536 | exactly that prekey goes and loads back undefined |
| KeyStore.SignalProtocolStore.LoadSignedPreKey | src/omemo.js:539-545 | undefined when absent, else the key-pair copy |
| KeyStore.SignalProtocolStore.StoreSignedPreKey | src/omemo.js:547-549 | stores under the signed-prekey key and loads back as the copy |
| KeyStore.SignalProtocolStore.RemoveSignedPreKey | src/omemo.js:551-553 | exactly that signed prekey goes and loads back undefined |
| KeyStore.SignalProtocolStore.LoadSession | src/omemo.js:555-557 | the stored session record, or undefined |
| KeyStore.SignalProtocolStore.HasSession | src/omemo.js:559-561 | true iff a truthy record is stored for the identifier |
| KeyStore.SignalProtocolStore.StoreSession | src/omemo.js:563-565 | a nullish record throws; otherwise it loads back, and `hasSession` follows its truthiness |
| KeyStore.SignalProtocolStore.RemoveSession | src/omemo.js:567-569 | exactly that record goes and `hasSession` turns false |
| KeyStore.SignalProtocolStore.RemoveAllSessions | src/omemo.js:571-578 | removes exactly the keys with the session prefix of the identifier, keeps every other entry |
| Devices.RandomInRange | src/omemo.js:200-205 | `floor(min + r * (max + 1 - min))` lies in `[min, max]` |
| Devices.Device.constructor | src/omemo.js:172-180 | a device starts with no prekeys and no session |
| Devices.Device.Address | src/omemo.js:178 | definition: the address text `jid.deviceId` the store keys sessions by |
| Devices.Device.RandomPreKey | src/omemo.js:200-205 | undefined iff there is no prekey; otherwise one of the collected prekeys |
| Devices.Device.GetBundle | src/omemo.js:182-198 | appends the reply's prekeys, returns its spk and ik, and picks from all collected prekeys |
| Devices.Device.InitSession | src/omemo.js:233-248 | throws iff no prekey was collected; else the bundle carries the device id as registration id, the ik, the spk and the picked prekey |
| Devices.Device.GetSession | src/omemo.js:256-261 | creates the SessionCipher once and returns the cached one afterwards |
| Devices.Device.Encrypt | src/omemo.js:218-231 | sets up a session only when none was stored before the call; resolves iff a session is ready and the cipher succeeds; the key's prekey flag is `type === 3`, its device id this device's |
| Devices.Device.Decrypt | src/omemo.js:207-216 | a truthy prekey flag selects the prekey-whisper path; the result is the cipher's |
| Peers.Ascending | src/omemo.js:55-66 | for-in visits every id of a sparse array exactly once |
| Peers.AscendingOrdered | src/omemo.js:55-66 | an id visited earlier is smaller than any id visited later |
| Peers.AscendingSorted | src/omemo.js:55-66 | the whole visit order is strictly ascending |
| Peers.ListedIds | src/omemo.js:32-46 | definition: the ids a device list names; a null list names none |
| Peers.Wraps | src/omemo.js:55-67 | definition: the i-th pushed promise settles as the oracle says for its Device and position |
| Peers.SettleAll | src/omemo.js:69 | definition: `Promise.all` rejects if any promise rejects, else yields every value in order |
| Peers.NonNull | src/omemo.js:71 | the filter keeps exactly the non-null keys |
| Peers.NonNullLength | src/omemo.js:71 | the filter drops exactly the nulls |
| Peers.NonNullKeepsAll | src/omemo.js:71 | with no null the filter keeps every key in order |
| Peers.Settle | src/omemo.js:69-77 | rejects iff some promise rejects; otherwise the keys are exactly the resolved non-null ones, with the AES iv and payload |
| Peers.AllWrapsYieldAllKeys | src/omemo.js:69-77 | when every device yields a key, the result lists them all in push order |
| Peers.PushOwnWraps | src/omemo.js:65-67 | the own-devices loop throws iff some own id is missing from the contact's map; otherwise it pushes one promise per own id from the contact's Device |
| Peers.Peer.constructor | src/omemo.js:18-30 | both maps hold exactly the listed ids, each with a new Device |
| Peers.Peer.GetDevice | src/omemo.js:94-100 | returns the kept Device, or adds a new one for the contact's jid |
| Peers.Peer.GetOwnDevice | src/omemo.js:86-92 | returns the kept Device, or adds a new one for the account's jid |
| Peers.Peer.UpdateDevices | src/omemo.js:32-38 | adds exactly the listed ids and keeps existing Devices; a missing list changes nothing |
| Peers.Peer.UpdateOwnDevices | src/omemo.js:40-46 | the same for the own-device map |
| Peers.Peer.ContactIds | src/omemo.js:52-63 | no id is visited iff the contact's map has no array index; otherwise every id of the map is visited, once each, and nothing else |
| Peers.Peer.FanOutTargets | src/omemo.js:52-67 | one target per visited contact id and per own id when every lookup succeeds |
| Peers.Peer.PushContactWraps | src/omemo.js:59-63 | one promise per contact device, in visit order |
| Peers.Peer.Encrypt | src/omemo.js:48-78 | AES failure rejects; discovery is requested iff the map has no array index; a missing own id rejects; otherwise `Promise.all` over the pushed promises, with the AES iv and payload |
| Peers.Peer.Decrypt | src/omemo.js:80-84 | adds the sender device if needed and dispatches on the prekey flag |
| Peers.FanOutNeverReachesOwnDevices | src/omemo.js:65-67 | every promise comes from a Device of the contact, never from an own-device entry |
| Peers.OwnIdMissingFromContactRejects | src/omemo.js:65-67 | an own id the contact lacks makes the fan-out throw |
| Bundles.OneTimeKeys | src/omemo.js:141-150 | prekey `i` has id `i`, the generated pair and no signature |
| Bundles.PreKeyEntries | src/omemo.js:141-158 | definition: the store entries the prekey loop writes, one per id below the count |
| Bundles.PreKeyEntriesAt | src/omemo.js:143-154 | after the loop, a prekey id has an entry iff it is below the count, holding its own pair |
| Bundles.PreKeyEntriesOnlyPreKeys | src/omemo.js:152-158 | the loop writes only prekey keys |
| Bundles.GeneratedEntries | src/omemo.js:141-166 | every prekey loads back as its pair; every key outside the prekey namespace except the signed key keeps its value |
| Bundles.Bundle.constructor | src/omemo.js:124-129 | identity stored, and the keys are the count one-time prekeys followed by signed prekey 1, all loadable |
| Bundles.Bundle.GenerateIdentity | src/omemo.js:131-139 | stores the identity pair and the registration id, nothing else |
| Bundles.Bundle.GeneratePreKeys | src/omemo.js:141-150 | the keys in order and the exact new store |
| Bundles.Bundle.GeneratePreKey | src/omemo.js:152-158 | stores the pair under its id and returns the key |
| Bundles.Bundle.GenerateSignedPreKey | src/omemo.js:160-167 | stores the pair under the signed namespace and returns the signed key |
| Bundles.FirstSigned | src/omemo.js:438 | undefined iff no key is signed; otherwise the first signed key |
| Bundles.FirstSignedOfGenerated | src/omemo.js:438 | among the generated keys, `find` picks the signed prekey |
| Stanzas.ReadKeyRoundTrip | src/omemo.js:405-416 | a `<key>` reads back as the device id, prekey flag and body it was built from |
| Stanzas.KeyElement | src/omemo.js:405-416 | definition: `<key rid=…>` with `prekey="true"` only for a prekey message, and the body as text |
| Stanzas.KeyElements | src/omemo.js:405-416 | definition: one key element per key, in order |
| Stanzas.EncryptedStanza | src/omemo.js:401-417 | definition: the tree the builder calls leave, with `<payload>` under `<message>` |
| Stanzas.KeyElementsReadBack | src/omemo.js:405-416 | the header's key elements read back position by position |
| Stanzas.StanzaLayout | src/omemo.js:401-417 | the header carries no attribute, and the payload is a child of the message, not of `<encrypted>` |
| Stanzas.CreateEncryptedStanza | src/omemo.js:401-418 | builds the message / encrypted / header / key… / payload tree that the builder calls spell out |
| Coordinator.GenerateDeviceId | src/omemo.js:288-293 | a device id in `[1, 2^31 - 1]` |
| Coordinator.UnsignedPreKeys | src/omemo.js:425-428 | the published list is never longer than the keys |
| Coordinator.UnsignedPreKeysMembers | src/omemo.js:425-428 | an entry is listed iff it comes from an unsigned key |
| Coordinator.UnsignedKeepsAll | src/omemo.js:425-428 | with no signed key, every key is listed in order |
| Coordinator.UnsignedOfGenerated | src/omemo.js:425-428 | the one-time prekeys are listed by id with their public keys |
| Coordinator.UnsignedDropsSigned | src/omemo.js:425-428 | a signed key is not listed |
| Coordinator.Publish | src/omemo.js:420-435 | nothing without a connection; throws iff there is no signed key; otherwise the signed key's id, public key and signature, the identity key, and the unsigned keys |
| Coordinator.Omemo.constructor | src/omemo.js:270-282 | keeps a stored device id or generates one in range; the bundle is generated into the new store |
| Coordinator.Omemo.GetPeer | src/omemo.js:345-350 | returns the kept Peer, or creates one for that jid with the connection's own-device list |
| Coordinator.Absent | src/omemo.js:325 | definition: `find(d => d.id == device_id)` finds nothing |
| Coordinator.Omemo.ReceiveMessage | src/omemo.js:313-343 | non-device-list messages change nothing; the account's list replaces the connection's, asks to publish iff this device id is absent, and changes no Peer; a contact's list adds its ids to that contact's Peer, keeping its Devices and own-device map, and changes no other Peer |
| Coordinator.Omemo.PublishBundle | src/omemo.js:437-442 | throws on an undefined identity; otherwise publishes the first signed key, the identity's pubKey and the unsigned keys |
| Coordinator.PublishOfGenerated | src/omemo.js:420-442 | over the generated keys, the published bundle is signed prekey 1 and prekeys `0 .. count-1` |
| Coordinator.PublishAfterGeneration | src/omemo.js:437-442 | after generation a connected publishBundle sends exactly that bundle, and nothing without a connection |
| UrlParams.Split | src/core.js:277-283 | `split` never yields an empty list |
| UrlParams.SplitSingleIff | src/core.js:277-279 | there is one part iff the string has no separator |
| UrlParams.SplitHead | src/core.js:277-282 | the first part runs up to the first separator |
| UrlParams.SplitFirstTwo | src/core.js:277-280 | the first part ends at the first separator; the second runs from just after it to the next separator |
| UrlParams.SplitPartsHaveNoSeparator | src/core.js:277-282 | no part holds a separator |
| UrlParams.SplitJoin | src/core.js:280-282 | joining the parts with the separator gives the string back |
| UrlParams.ParamWithoutEquals | src/core.js:282-284 | a parameter without `=` maps its whole text to null |
| UrlParams.ParamWithEquals | src/core.js:282-287 | otherwise it maps the text before the first `=` to the text up to the next `=` (`a=` gives `""`) |
| UrlParams.ParamsOfNames | src/core.js:281-288 | a name has an entry iff some parameter carries it |
| UrlParams.LastOccurrenceWins | src/core.js:281-288 | the last parameter carrying a name decides its value |
| UrlParams.NoDelimiterNoParams | src/core.js:277-279 | no `?` or `#` gives an empty dictionary |
| UrlParams.ParamsFromFirstSegment | src/core.js:277-280 | only the text between the first delimiter and the next is parsed |
| UrlParams.ParamName | src/core.js:282-287 | definition: the text before the first `=` |
| UrlParams.ParamValue | src/core.js:282-287 | definition: null without `=`, else the text between the first and second `=` |
| UrlParams.ParamsOf | src/core.js:281-288 | definition: the loop as a left fold, each parameter overwriting its name's entry |
| UrlParams.URLParams | src/core.js:276-289 | definition: `url_params` for a given location, empty without a delimiter |
| Core.FullStorageName | src/core.js:302 | the full storage name is non-empty and contains `-` |
| Core.GetStorageName | src/core.js:293-299 | the full storage name, extended by `-` and the ending iff the ending is truthy |
| Core.EndingChangesName | src/core.js:293-299 | a truthy ending gives a longer, different name |
| Core.LocalStorage.RemoveItem | src/core.js:113-118 | deletes exactly that key and leaves every other item |
| Core.CleanedUp | src/core.js:301-309 | definition: localStorage without the `xabber` keys that do not start with the full storage name |
| Core.QuitCleared | src/core.js:113-118 | definition: localStorage without the keys that start with the full storage name |
| Core.CleanUpKeepsCurrentStorage | src/core.js:301-309 | clean-up keeps the current storage's keys and every non-`xabber` key |
| Core.CleanUpLeavesCurrentVersion | src/core.js:301-309 | clean-up only removes, and every `xabber` key left belongs to the current version |
| Core.CleanUpIdempotent | src/core.js:301-309 | a second clean-up removes nothing more |
| Core.QuitClearsCurrentStorage | src/core.js:113-118 | quitting leaves no key of the current storage name and keeps every other key; after clean-up, no `xabber` key survives when the name starts with `xabber` |
| Core.Picked | src/core.js:197-211 | definition: `_.pick` over the thirteen listed settings, keeping those the configuration has |
| Core.NormalisedLevel | src/core.js:213-214 | definition: the threshold LOG_LEVEL names when truthy, else LOG_LEVEL_ERROR |
| Core.WithTurnServers | src/core.js:221-226 | definition: the TURN_SERVERS_LIST update for an array, a non-empty object, or neither |
| Core.Configured | src/core.js:197-226 | definition: the constants after the pick, the level normalisation and the TURN update |
| Core.ThresholdsNotConfigured | src/core.js:197-211 | `LOG_LEVEL_…` thresholds are never copied from the configuration |
| Core.ConfiguredLevel | src/core.js:213-214 | LOG_LEVEL becomes the named threshold when truthy, else LOG_LEVEL_ERROR |
| Core.ConfiguredSettings | src/core.js:197-211 | picked settings take the configuration's value; every other key except TURN_SERVERS_LIST keeps its value |
| Core.ConfiguredTurnServers | src/core.js:221-226 | a truthy array is set as is, a non-empty object as `[obj]`, anything else leaves the list alone |
| Core.ConfigureIdempotentWithLevel | src/core.js:197-226 | configuring twice with a LOG_LEVEL setting equals configuring once |
| Core.ReconfigureFallsBackToError | src/core.js:213-214 | without a LOG_LEVEL setting, a numeric level with no truthy `LOG_LEVEL_<n>` falls back to LOG_LEVEL_ERROR |
| Core.AtLeast | src/core.js:42-64 | definition: JavaScript's `>=` after ToPrimitive: code-unit order on two strings, else numeric, false on NaN |
| Core.Emits | src/core.js:42-64 | definition: the logger with that threshold writes iff `LOG_LEVEL >= threshold` |
| Core.AtLeastOnNumbers | src/core.js:42-64 | the gate is numeric `>=` on numbers and never opens on undefined |
| Core.LoggersNest | src/core.js:42-64 | with ordered numeric thresholds, a more verbose logger writing implies every less verbose one writes |
| Core.ErrorsWrittenAfterFallback | src/core.js:42-46 | after falling back to a numeric LOG_LEVEL_ERROR, errors are written |
| Core.Xabber.constructor | src/core.js:22-25 | start-up reads the URL parameters, then cleans up storage |
| Core.Xabber.FetchURLParams | src/core.js:276-289 | the dictionary equals the parsed parameters of the href |
| Core.Xabber.CleanUpStorage | src/core.js:301-309 | removes exactly the `xabber` keys that do not start with the full storage name |
| Core.Xabber.OnQuit | src/core.js:113-118 | removes exactly the keys that start with the full storage name |
| Core.Xabber.Configure | src/core.js:196-249 | the constants become the configured ones; the check resolves false iff mobile or without a truthy connection URL |
| Core.Xabber.Error | src/core.js:42-46 | writes the message iff `LOG_LEVEL >= LOG_LEVEL_ERROR` |
| Core.Xabber.Warn | src/core.js:48-52 | writes the message iff `LOG_LEVEL >= LOG_LEVEL_WARN` |
| Core.Xabber.Info | src/core.js:54-58 | writes the message iff `LOG_LEVEL >= LOG_LEVEL_INFO` |
| Core.Xabber.Debug | src/core.js:60-64 | writes the message iff `LOG_LEVEL >= LOG_LEVEL_DEBUG` |

## Left out

- Transport and XML parsing: `getBundleInfo`, `requestUserDevices`, `publishDevice`, `publishBundle`,
  `addDevice`, `addHandler` and jQuery/Strophe parsing. The model works on what they carry: device-id
  lists, bundle replies and `(rid, prekey, body)` tuples. Attributes that Strophe's builder adds by
  itself, such as the client namespace on `<message>`, are not modelled.
- libsignal is not modelled: no X3DH, no Double Ratchet and no signatures. KeyHelper,
  SessionBuilder and SessionCipher results are parameters.
- AES, base64 (`btoa`, `toBase64`, `fromBase64toArrayBuffer`) and `util.toString` are not modelled.
  Binary text is the byte sequence itself.
- Asynchrony:
  - each promise is modelled by how it settles;
  - `Bundle.initialize` is modelled as finished, although the source does not await
    `generatePreKeys`;
  - the race of the discovery callback appears only as the `discovery` flag.
- `Omemo.encrypt` is not modelled. It only logs, and it swallows rejection.
- `Omemo.decrypt` is not modelled. Its body is commented out and it does nothing.
- `receiveMessage` does nothing for bundle nodes and encrypted messages, and neither does the model.
- Backbone is not modelled: models, collections, events, `save`, `Peers.updateInCollections`, the
  contacts lookup in `getPeer`, and the `device_id` change handler.
- From src/core.js, these are I/O or UI: `readActualVersion`, `cacheFavicons`, media devices, push
  and notifications, dialogs, `throwNewVersion` and the polyfills. So are `history.pushState`, the
  indexedDB deletion in `onQuit`, and the `DEBUG` window globals.
- `configure`'s wait for the notification permission is not modelled. The check resolves `true`
  after it.
- `for…in` over localStorage also lists the Storage methods (`getItem`, …). None of them starts
  with `xabber` or contains `-`, so the model lists stored keys only.
- Core.NumberOf: strings convert to numbers only as `""` or plain decimal digits. Signs,
  whitespace, fractions and hex are not modelled, and numbers are integers.
- Devices.Device.Encrypt: libsignal's `processPreKey` and `SessionCipher.encrypt` write the session
  record and the remote identity into the store. The model does not, so the store is left as it was.
  In the source, once an encrypt succeeds `hasSession` turns true and later calls skip `initSession`;
  the model does not reach that state.
- Peers.Peer.Encrypt: each `device.encrypt` promise is the `wrap` parameter. The prekeys each Device
  collects and the SessionCipher it caches during the fan-out are not modelled, and neither are the
  store writes above.
- KeyStore.SignalProtocolStore.SaveIdentity: `SignalProtocolAddress.fromString` and
  `libsignal.toString` are foreign. The address name (or the error `fromString` throws) and the
  string form used for the change report are parameters. If `libsignal.toString` is inherited
  `Object.prototype.toString`, every key prints alike and the report is always false; the model
  covers that as one choice of the parameter.
- Peers.Ascending: ids at or above 2^32 - 1 are not array indices. For-in visits them after the
  indices, in insertion order, not in ascending order. The model orders them ascending too.
  `generateDeviceId` yields ids below 2^31.
- Prototype-chain keys (`toString`, `__proto__`) of plain objects used as dictionaries are not
  modelled.
