/**
 * The Xabber application object of src/core.js: the URL parameters read at start-up, the
 * storage name, the removal of stale and of current localStorage keys, `configure`'s
 * log-level and TURN-list normalisation, and the level gate of the four loggers.
 * `env.constants` and `window.localStorage` are shared objects, modelled as classes.
 */
module Core {
  import opened Wrappers
  import opened JsValues
  import opened UrlParams

  /** `constants[name]`: undefined when the dictionary has no such entry. */
  function Lookup(entries: map<string, JsValue>, name: string): JsValue {
    if name in entries then entries[name] else JsUndefined
  }

  /** `env.constants`, which `configure` extends in place and everything else reads. */
  class Constants {
    var entries: map<string, JsValue>

    constructor(entries: map<string, JsValue>)
      ensures this.entries == entries
    {
      this.entries := entries;
    }
  }

  /** `window.localStorage`: string keys to string values. */
  class LocalStorage {
    var items: map<string, string>

    constructor(items: map<string, string>)
      ensures this.items == items
    {
      this.items := items;
    }

    /** `removeItem(key)`: the entry goes, if there was one; nothing else changes. */
    method RemoveItem(key: string)
      modifies this
      ensures items == old(items) - {key}
    {
      items := items - {key};
    }
  }

  // ---------------------------------------------------------------------------------------
  // Storage names

  /** `STORAGE_NAME + '-' + STORAGE_VERSION`, the prefix cleanUpStorage and onQuit compare with. */
  function FullStorageName(constants: map<string, JsValue>): (full: string)
    ensures |full| > 0 && '-' in full
  {
    assert (ToText(Lookup(constants, "STORAGE_NAME")) + "-")[|ToText(Lookup(constants, "STORAGE_NAME"))|] == '-';
    ToText(Lookup(constants, "STORAGE_NAME")) + "-" + ToText(Lookup(constants, "STORAGE_VERSION"))
  }

  /** `getStorageName()`: the full storage name, plus `'-' + STORAGE_NAME_ENDING` when the ending is truthy. */
  function GetStorageName(constants: map<string, JsValue>): (name: string)
    ensures StartsWith(name, FullStorageName(constants))
    ensures Lookup(constants, "STORAGE_NAME_ENDING").Truthy() ==>
      name == FullStorageName(constants) + "-" + ToText(Lookup(constants, "STORAGE_NAME_ENDING"))
    ensures !Lookup(constants, "STORAGE_NAME_ENDING").Truthy() ==> name == FullStorageName(constants)
  {
    var name := FullStorageName(constants);
    var ending := Lookup(constants, "STORAGE_NAME_ENDING");
    if ending.Truthy() then
      var longer := name + "-" + ToText(ending);
      assert longer[..|name|] == name;
      longer
    else name
  }

  /** A truthy ending always yields a name other than the full storage name. */
  lemma EndingChangesName(constants: map<string, JsValue>)
    requires Lookup(constants, "STORAGE_NAME_ENDING").Truthy()
    ensures GetStorageName(constants) != FullStorageName(constants)
    ensures |GetStorageName(constants)| > |FullStorageName(constants)|
  {
  }

  /** Whether cleanUpStorage removes a key: it belongs to some Xabber storage other than the current version's. */
  predicate CleanUpRemoves(key: string, full: string) {
    StartsWith(key, "xabber") && !StartsWith(key, full)
  }

  /** localStorage after cleanUpStorage. */
  function CleanedUp(items: map<string, string>, full: string): map<string, string> {
    map k | k in items && !CleanUpRemoves(k, full) :: items[k]
  }

  /** localStorage after onQuit: every key of the current storage version, with any ending, is gone. */
  function QuitCleared(items: map<string, string>, full: string): map<string, string> {
    map k | k in items && !StartsWith(k, full) :: items[k]
  }

  /**
   * Clean-up keeps whatever the current storage name (with its ending) uses, and
   * every key outside the `xabber` namespace, with its value.
   */
  lemma CleanUpKeepsCurrentStorage(items: map<string, string>, constants: map<string, JsValue>, k: string)
    requires k in items
    requires StartsWith(k, GetStorageName(constants)) || !StartsWith(k, "xabber")
    ensures var after := CleanedUp(items, FullStorageName(constants));
      k in after && after[k] == items[k]
  {
    var full := FullStorageName(constants);
    var name := GetStorageName(constants);
    if StartsWith(k, name) {
      assert k[..|full|] == name[..|full|];
    }
  }

  /** After clean-up, every `xabber` key belongs to the current storage version; clean-up only removes. */
  lemma CleanUpLeavesCurrentVersion(items: map<string, string>, full: string)
    ensures CleanedUp(items, full).Keys <= items.Keys
    ensures forall k :: k in CleanedUp(items, full) && StartsWith(k, "xabber") ==> StartsWith(k, full)
  {
  }

  /** Cleaning up twice removes nothing more. */
  lemma CleanUpIdempotent(items: map<string, string>, full: string)
    ensures CleanedUp(CleanedUp(items, full), full) == CleanedUp(items, full)
  {
  }

  /**
   * onQuit leaves no key of the current storage name, whatever its ending, keeps every other
   * key with its value, and so, after start-up's clean-up, leaves no `xabber` key when the full
   * name itself starts with `xabber`.
   */
  lemma QuitClearsCurrentStorage(items: map<string, string>, constants: map<string, JsValue>)
    ensures forall k :: k in QuitCleared(items, FullStorageName(constants)) ==> !StartsWith(k, GetStorageName(constants))
    ensures forall k :: k in items && !StartsWith(k, FullStorageName(constants)) ==>
      k in QuitCleared(items, FullStorageName(constants)) && QuitCleared(items, FullStorageName(constants))[k] == items[k]
    ensures StartsWith(FullStorageName(constants), "xabber") ==>
      forall k :: k in QuitCleared(CleanedUp(items, FullStorageName(constants)), FullStorageName(constants)) ==>
        !StartsWith(k, "xabber")
  {
    var full := FullStorageName(constants);
    if StartsWith(full, "xabber") {
      forall k | k in QuitCleared(CleanedUp(items, full), full)
        ensures !StartsWith(k, "xabber")
      {
      }
    }
  }

  // ---------------------------------------------------------------------------------------
  // configure

  /** The settings `configure` copies from its argument (`_.pick`). */
  const PickedKeys: set<string> := {
    "CONNECTION_URL", "PERSONAL_AREA_URL", "LOG_LEVEL", "DEBUG", "XABBER_ACCOUNT_URL",
    "REGISTER_XMPP_ACCOUNT", "API_SERVICE_URL", "USE_SOCIAL_AUTH", "CONTAINER", "CHECK_VERSION",
    "DEFAULT_LOGIN_SCREEN", "STORAGE_NAME_ENDING", "DISABLE_LOOKUP_WS"
  }

  /** `_.pick(config, PickedKeys)`: the listed keys the configuration has, even with an undefined value. */
  function Picked(config: map<string, JsValue>): map<string, JsValue> {
    map k | k in config && k in PickedKeys :: config[k]
  }

  /** `constants['LOG_LEVEL_' + constants.LOG_LEVEL] || constants.LOG_LEVEL_ERROR` */
  function NormalisedLevel(constants: map<string, JsValue>): JsValue {
    var named := Lookup(constants, "LOG_LEVEL_" + ToText(Lookup(constants, "LOG_LEVEL")));
    if named.Truthy() then named else Lookup(constants, "LOG_LEVEL_ERROR")
  }

  /** `_.isObject(v) && Object.keys(v).length` for a value that is not an array: a plain object with an own key. */
  predicate NonEmptyObject(v: JsValue) {
    v.JsObject? && v.fields != map[]
  }

  /** The TURN_SERVERS_LIST setting: a truthy array as given, a non-empty object wrapped in an array, else untouched. */
  function WithTurnServers(constants: map<string, JsValue>, config: map<string, JsValue>): map<string, JsValue> {
    var turn := Lookup(config, "TURN_SERVERS_LIST");
    if !turn.Truthy() then constants
    else if turn.JsArray? then constants["TURN_SERVERS_LIST" := turn]
    else if NonEmptyObject(turn) then constants["TURN_SERVERS_LIST" := JsArray([turn])]
    else constants
  }

  /** `constants` after `configure(config)`. */
  function Configured(constants: map<string, JsValue>, config: map<string, JsValue>): map<string, JsValue> {
    var extended := constants + Picked(config);
    WithTurnServers(extended["LOG_LEVEL" := NormalisedLevel(extended)], config)
  }

  /**
   * After configure, LOG_LEVEL holds the threshold named by the (possibly new) LOG_LEVEL
   * setting when that threshold is truthy, and LOG_LEVEL_ERROR otherwise.
   */
  lemma ConfiguredLevel(constants: map<string, JsValue>, config: map<string, JsValue>)
    ensures var extended := constants + Picked(config);
      var name := if "LOG_LEVEL" in config then config["LOG_LEVEL"] else Lookup(constants, "LOG_LEVEL");
      var named := Lookup(extended, "LOG_LEVEL_" + ToText(name));
      && (named.Truthy() ==> Lookup(Configured(constants, config), "LOG_LEVEL") == named)
      && (!named.Truthy() ==> Lookup(Configured(constants, config), "LOG_LEVEL") == Lookup(extended, "LOG_LEVEL_ERROR"))
  {
  }

  /** The thresholds are not settings `configure` copies, so they keep their values. */
  lemma ThresholdsNotConfigured(constants: map<string, JsValue>, config: map<string, JsValue>, key: string)
    requires StartsWith(key, "LOG_LEVEL_")
    ensures key !in PickedKeys && key != "LOG_LEVEL" && key != "TURN_SERVERS_LIST"
    ensures Lookup(constants + Picked(config), key) == Lookup(constants, key)
  {
    forall p | p in PickedKeys + {"TURN_SERVERS_LIST"}
      ensures !StartsWith(p, "LOG_LEVEL_")
    {
      if p != "LOG_LEVEL" {
        assert p[0] != 'L';
      }
    }
  }

  /**
   * Every copied setting other than LOG_LEVEL takes the configuration's value, and every key
   * that is neither copied nor LOG_LEVEL nor TURN_SERVERS_LIST keeps its value.
   */
  lemma ConfiguredSettings(constants: map<string, JsValue>, config: map<string, JsValue>)
    ensures forall k :: k in config && k in PickedKeys && k != "LOG_LEVEL" ==>
      Lookup(Configured(constants, config), k) == config[k]
    ensures forall k :: k !in PickedKeys && k != "TURN_SERVERS_LIST" ==>
      Lookup(Configured(constants, config), k) == Lookup(constants, k)
  {
  }

  /** A truthy TURN list as an array is taken as is; a non-empty object becomes a one-element list; else the old value stays. */
  lemma ConfiguredTurnServers(constants: map<string, JsValue>, config: map<string, JsValue>)
    ensures var turn := Lookup(config, "TURN_SERVERS_LIST");
      var after := Lookup(Configured(constants, config), "TURN_SERVERS_LIST");
      && (turn.Truthy() && turn.JsArray? ==> after == turn)
      && (NonEmptyObject(turn) ==> after == JsArray([turn]))
      && (!(turn.Truthy() && turn.JsArray?) && !NonEmptyObject(turn) ==> after == Lookup(constants, "TURN_SERVERS_LIST"))
  {
  }

  /** A key that starts with `LOG_LEVEL_` is a threshold, never a setting configure writes. */
  lemma LevelKeyIsThreshold(name: string)
    ensures StartsWith("LOG_LEVEL_" + name, "LOG_LEVEL_")
  {
    assert ("LOG_LEVEL_" + name)[..10] == "LOG_LEVEL_";
  }

  /** Updating TURN_SERVERS_LIST commutes with writing any other key, and doing it twice changes nothing more. */
  lemma WithTurnServersUpdates(m: map<string, JsValue>, config: map<string, JsValue>, k: string, v: JsValue)
    requires k != "TURN_SERVERS_LIST"
    ensures WithTurnServers(m[k := v], config) == WithTurnServers(m, config)[k := v]
    ensures WithTurnServers(WithTurnServers(m, config), config) == WithTurnServers(m, config)
    ensures WithTurnServers(m, config) + Picked(config) == WithTurnServers(m + Picked(config), config)
  {
    assert "TURN_SERVERS_LIST" !in PickedKeys;
  }

  /** The level normalisation reads only LOG_LEVEL and the thresholds, not the TURN list. */
  lemma NormalisedLevelIgnoresTurn(m: map<string, JsValue>, config: map<string, JsValue>)
    ensures NormalisedLevel(WithTurnServers(m, config)) == NormalisedLevel(m)
  {
    LevelKeyIsThreshold(ToText(Lookup(m, "LOG_LEVEL")));
    LevelKeyIsThreshold("ERROR");
    ThresholdsNotConfigured(m, config, "LOG_LEVEL_" + ToText(Lookup(m, "LOG_LEVEL")));
    ThresholdsNotConfigured(m, config, "LOG_LEVEL_ERROR");
  }

  /**
   * Configuring twice with a configuration that names a log level gives the same constants as
   * configuring once.
   */
  lemma ConfigureIdempotentWithLevel(constants: map<string, JsValue>, config: map<string, JsValue>)
    requires "LOG_LEVEL" in config
    ensures Configured(Configured(constants, config), config) == Configured(constants, config)
  {
    var extended := constants + Picked(config);
    var level := NormalisedLevel(extended);
    var once := Configured(constants, config);
    assert extended + Picked(config) == extended;
    assert extended["LOG_LEVEL" := level] + Picked(config) == extended;
    WithTurnServersUpdates(extended["LOG_LEVEL" := level], config, "LOG_LEVEL", level);
    var again := once + Picked(config);
    assert again == WithTurnServers(extended, config);
    NormalisedLevelIgnoresTurn(extended, config);
    WithTurnServersUpdates(extended, config, "LOG_LEVEL", level);
    WithTurnServersUpdates(extended["LOG_LEVEL" := level], config, "LOG_LEVEL", level);
  }

  /**
   * Without a LOG_LEVEL in the configuration, a level that is already a number (as after an
   * earlier configure) is looked up as `LOG_LEVEL_<number>`: when no such threshold is truthy,
   * the level falls back to LOG_LEVEL_ERROR.
   */
  lemma ReconfigureFallsBackToError(constants: map<string, JsValue>, config: map<string, JsValue>, level: int)
    requires "LOG_LEVEL" !in config
    requires Lookup(constants, "LOG_LEVEL") == JsNumber(level)
    requires !Lookup(constants, "LOG_LEVEL_" + IntText(level)).Truthy()
    ensures Lookup(Configured(constants, config), "LOG_LEVEL") == Lookup(constants, "LOG_LEVEL_ERROR")
  {
    LevelKeyIsThreshold(IntText(level));
    LevelKeyIsThreshold("ERROR");
    ThresholdsNotConfigured(constants, config, "LOG_LEVEL_" + IntText(level));
    ThresholdsNotConfigured(constants, config, "LOG_LEVEL_ERROR");
  }

  // ---------------------------------------------------------------------------------------
  // The level gate of error / warn / info / debug

  /** ToPrimitive for the comparison: objects, arrays and buffers compare through their string form. */
  function Primitive(v: JsValue): (p: JsValue)
    ensures !p.JsObject? && !p.JsBuffer? && !p.JsArray?
  {
    if v.JsObject? || v.JsBuffer? || v.JsArray? then JsString(ToText(v)) else v
  }

  /** ToNumber on a primitive; None stands for NaN. Strings are read as plain decimal digits only. */
  function NumberOf(p: JsValue): Option<int> {
    match p
    case JsUndefined => None
    case JsNull => Some(0)
    case JsBool(b) => Some(if b then 1 else 0)
    case JsNumber(n) => Some(n)
    case JsString(s) => if s == "" then Some(0) else if AllDigits(s) then Some(DecimalValue(s)) else None
    case _ => None
  }

  /** String comparison `a < b` by code units. */
  predicate LexLess(a: string, b: string) {
    if a == [] then b != []
    else if b == [] then false
    else if a[0] != b[0] then a[0] < b[0]
    else LexLess(a[1..], b[1..])
  }

  /** JavaScript's `a >= b`: two strings compare by code units, anything else numerically, false with NaN. */
  predicate AtLeast(a: JsValue, b: JsValue) {
    var pa := Primitive(a);
    var pb := Primitive(b);
    if pa.JsString? && pb.JsString? then !LexLess(pa.s, pb.s)
    else
      var na := NumberOf(pa);
      var nb := NumberOf(pb);
      na.Some? && nb.Some? && na.value >= nb.value
  }

  /** Whether the logger whose threshold is the constant `threshold` writes its message. */
  predicate Emits(constants: map<string, JsValue>, threshold: string) {
    AtLeast(Lookup(constants, "LOG_LEVEL"), Lookup(constants, threshold))
  }

  /** On numbers, `>=` is the integer order; an undefined level or threshold never emits. */
  lemma AtLeastOnNumbers(a: JsValue, b: JsValue)
    ensures a.JsNumber? && b.JsNumber? ==> (AtLeast(a, b) <==> a.n >= b.n)
    ensures a.JsUndefined? || b.JsUndefined? ==> !AtLeast(a, b)
  {
  }

  /**
   * With numeric thresholds ordered ERROR <= WARN <= INFO <= DEBUG, each logger that writes
   * implies that every less verbose one writes too.
   */
  lemma LoggersNest(constants: map<string, JsValue>)
    requires Lookup(constants, "LOG_LEVEL").JsNumber?
    requires var e, w, i, d := Lookup(constants, "LOG_LEVEL_ERROR"), Lookup(constants, "LOG_LEVEL_WARN"),
                               Lookup(constants, "LOG_LEVEL_INFO"), Lookup(constants, "LOG_LEVEL_DEBUG");
      e.JsNumber? && w.JsNumber? && i.JsNumber? && d.JsNumber? && e.n <= w.n <= i.n <= d.n
    ensures Emits(constants, "LOG_LEVEL_DEBUG") ==> Emits(constants, "LOG_LEVEL_INFO")
    ensures Emits(constants, "LOG_LEVEL_INFO") ==> Emits(constants, "LOG_LEVEL_WARN")
    ensures Emits(constants, "LOG_LEVEL_WARN") ==> Emits(constants, "LOG_LEVEL_ERROR")
  {
  }

  /** When configure falls back to a numeric LOG_LEVEL_ERROR, errors are written. */
  lemma ErrorsWrittenAfterFallback(constants: map<string, JsValue>, config: map<string, JsValue>)
    requires Lookup(constants, "LOG_LEVEL_ERROR").JsNumber?
    requires Lookup(Configured(constants, config), "LOG_LEVEL") == Lookup(constants + Picked(config), "LOG_LEVEL_ERROR")
    ensures Emits(Configured(constants, config), "LOG_LEVEL_ERROR")
  {
    LevelKeyIsThreshold("ERROR");
    ThresholdsNotConfigured(constants, config, "LOG_LEVEL_ERROR");
    var after := Configured(constants, config);
    assert Lookup(after, "LOG_LEVEL_ERROR") == Lookup(constants, "LOG_LEVEL_ERROR") by {
      ConfiguredSettings(constants, config);
      assert "LOG_LEVEL_ERROR" !in PickedKeys;
    }
  }

  // ---------------------------------------------------------------------------------------
  // The application object

  class Xabber {
    const constants: Constants
    const storage: LocalStorage
    var urlParams: map<string, Option<string>>

    /** `initialize`, as far as it is modelled: the URL parameters from `href`, then the storage clean-up. */
    constructor(constants: Constants, storage: LocalStorage, href: string)
      modifies storage
      ensures this.constants == constants && this.storage == storage
      ensures urlParams == URLParams(href)
      ensures storage.items == CleanedUp(old(storage.items), FullStorageName(constants.entries))
    {
      this.constants := constants;
      this.storage := storage;
      urlParams := map[];
      new;
      FetchURLParams(href);
      CleanUpStorage();
    }

    /**
     * `fetchURLParams()` for `location.href == href`: the segment after the first `?` or `#`,
     * split at `&`, each parameter at `=`.
     */
    method FetchURLParams(href: string)
      modifies this`urlParams
      ensures urlParams == URLParams(href)
    {
      var splitted := Split(href, Delimiters);
      urlParams := map[];
      if |splitted| > 1 {
        var params := Split(splitted[1], {'&'});
        var idx := 0;
        while idx < |params|
          invariant 0 <= idx <= |params|
          invariant urlParams == ParamsOf(params[..idx])
        {
          var param := Split(params[idx], {'='});
          if |param| == 1 {
            urlParams := urlParams[param[0] := None];
          } else {
            urlParams := urlParams[param[0] := Some(param[1])];
          }
          assert params[..idx + 1][..idx] == params[..idx];
          idx := idx + 1;
        }
        assert params[..idx] == params;
      }
    }

    /** `cleanUpStorage()`: removes every `xabber` key that does not start with the full storage name. */
    method CleanUpStorage()
      modifies storage
      ensures storage.items == CleanedUp(old(storage.items), FullStorageName(constants.entries))
    {
      var full := ToText(Lookup(constants.entries, "STORAGE_NAME")) + "-"
                  + ToText(Lookup(constants.entries, "STORAGE_VERSION"));
      var pending := storage.items.Keys;
      while pending != {}
        invariant pending <= old(storage.items).Keys
        invariant storage.items == map k | k in old(storage.items) && (k in pending || !CleanUpRemoves(k, full)) ::
                                     old(storage.items)[k]
        decreases pending
      {
        var key :| key in pending;
        if StartsWith(key, "xabber") && !StartsWith(key, full) {
          storage.RemoveItem(key);
        }
        pending := pending - {key};
      }
    }

    /** The localStorage part of `onQuit()`: removes every key that starts with the full storage name. */
    method OnQuit()
      modifies storage
      ensures storage.items == QuitCleared(old(storage.items), FullStorageName(constants.entries))
    {
      var full := ToText(Lookup(constants.entries, "STORAGE_NAME")) + "-"
                  + ToText(Lookup(constants.entries, "STORAGE_VERSION"));
      var pending := storage.items.Keys;
      while pending != {}
        invariant pending <= old(storage.items).Keys
        invariant storage.items == map k | k in old(storage.items) && (k in pending || !StartsWith(k, full)) ::
                                     old(storage.items)[k]
        decreases pending
      {
        var key :| key in pending;
        if StartsWith(key, full) {
          storage.RemoveItem(key);
        }
        pending := pending - {key};
      }
    }

    /**
     * `configure(config)` up to the configuration check: the constants are extended and
     * normalised; the check resolves false (`refused`) on a mobile browser or without a
     * connection URL, and otherwise waits for the notification permission.
     */
    method Configure(config: map<string, JsValue>, mobile: bool) returns (refused: bool)
      modifies constants
      ensures constants.entries == Configured(old(constants.entries), config)
      ensures refused <==> mobile || !Lookup(constants.entries, "CONNECTION_URL").Truthy()
    {
      var extended := constants.entries + Picked(config);
      var level := Lookup(extended, "LOG_LEVEL_" + ToText(Lookup(extended, "LOG_LEVEL")));
      constants.entries := extended["LOG_LEVEL" := if level.Truthy() then level else Lookup(extended, "LOG_LEVEL_ERROR")];
      var turn := Lookup(config, "TURN_SERVERS_LIST");
      if turn.Truthy() {
        if turn.JsArray? {
          constants.entries := constants.entries["TURN_SERVERS_LIST" := turn];
        } else if turn.JsObject? && turn.fields != map[] {
          constants.entries := constants.entries["TURN_SERVERS_LIST" := JsArray([turn])];
        }
      }
      if mobile {
        return true;
      }
      refused := !Lookup(constants.entries, "CONNECTION_URL").Truthy();
    }

    /** `error(msg)`: the message written to the console, if any. */
    method Error(msg: string) returns (written: Option<string>)
      ensures written.Some? <==> Emits(constants.entries, "LOG_LEVEL_ERROR")
      ensures written.Some? ==> written.value == msg
    {
      written := if AtLeast(Lookup(constants.entries, "LOG_LEVEL"), Lookup(constants.entries, "LOG_LEVEL_ERROR")) then Some(msg) else None;
    }

    /** `warn(msg)` */
    method Warn(msg: string) returns (written: Option<string>)
      ensures written.Some? <==> Emits(constants.entries, "LOG_LEVEL_WARN")
      ensures written.Some? ==> written.value == msg
    {
      written := if AtLeast(Lookup(constants.entries, "LOG_LEVEL"), Lookup(constants.entries, "LOG_LEVEL_WARN")) then Some(msg) else None;
    }

    /** `info(msg)` */
    method Info(msg: string) returns (written: Option<string>)
      ensures written.Some? <==> Emits(constants.entries, "LOG_LEVEL_INFO")
      ensures written.Some? ==> written.value == msg
    {
      written := if AtLeast(Lookup(constants.entries, "LOG_LEVEL"), Lookup(constants.entries, "LOG_LEVEL_INFO")) then Some(msg) else None;
    }

    /** `debug(msg)` */
    method Debug(msg: string) returns (written: Option<string>)
      ensures written.Some? <==> Emits(constants.entries, "LOG_LEVEL_DEBUG")
      ensures written.Some? ==> written.value == msg
    {
      written := if AtLeast(Lookup(constants.entries, "LOG_LEVEL"), Lookup(constants.entries, "LOG_LEVEL_DEBUG")) then Some(msg) else None;
    }
  }
}
