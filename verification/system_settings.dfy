// The global settings service: a configuration object replaced by a
// top-level merge on every update, and a list of reload listeners that is
// notified in registration order after each update.
module SystemSettings {
  import opened Wrappers
  import opened JsValue
  import opened SeqFilter

  function Toggle(enabled: bool, risk: string): Value
  {
    Obj(map["enabled" := Bool(enabled), "risk" := Str(risk)])
  }

  /** The factory feature toggles. */
  function DefaultToggles(): Record
  {
    map[
      "salesLabAdvancedMode" := Toggle(true, "medium"),
      "gamification" := Toggle(true, "low"),
      "insightsEngine" := Toggle(true, "low"),
      "teamMissions" := Toggle(false, "high")]
  }

  /** The factory configuration, stamped with the load time. */
  function DefaultConfig(loadedAt: string): (c: Record)
    ensures Get(c, "version") == Some(Str("v2.0.0-default"))
    ensures Get(c, "updatedAt") == Some(Str(loadedAt))
  {
    map[
      "version" := Str("v2.0.0-default"),
      "updatedAt" := Str(loadedAt),
      "aiModel" := Obj(map[
        "provider" := Str("openai"),
        "modelName" := Str("gpt-4o"),
        "maxTokens" := Num(2048),
        "tonePreset" := Str("standard")]),
      "authentication" := Obj(map["enableSSO" := Bool(false), "allowPasswordFallback" := Bool(true)]),
      "featureToggles" := Obj(DefaultToggles()),
      "securityPolicy" := Obj(map["maxConcurrentSessions" := Num(3), "dataRetentionDays" := Num(90)])]
  }

  /** What `getFeatureStatus(key)` produces: the value it returns (None is
    * `undefined`), or the TypeError it throws. */
  datatype StatusRead = Read(enabled: Option<Value>) | TypeError

  /** `config.featureToggles`, present and neither `undefined` nor `null`:
    * the property lookup on it does not throw. */
  predicate HasToggleTable(config: Record)
  {
    "featureToggles" in config && config["featureToggles"] != Null
  }

  /** `getFeatureStatus(key)`: a lookup through a missing or `null` toggle
    * table throws; otherwise the toggle's `enabled` field when the toggle
    * is truthy (`undefined` for a truthy toggle that is not an object),
    * else false. A toggle table that is not an object has no toggles. */
  function FeatureStatus(config: Record, key: string): (r: StatusRead)
    ensures r == TypeError <==> !HasToggleTable(config)
    ensures HasToggleTable(config) && !(config["featureToggles"].Obj? && key in config["featureToggles"].fields)
      ==> r == Read(Some(Bool(false)))
    ensures HasToggleTable(config) && config["featureToggles"].Obj? && key in config["featureToggles"].fields ==>
      var toggle := config["featureToggles"].fields[key];
      r == if !Truthy(Some(toggle)) then Read(Some(Bool(false)))
           else if toggle.Obj? then Read(Get(toggle.fields, "enabled"))
           else Read(None)
  {
    if !HasToggleTable(config) then TypeError
    else
      var toggles := if config["featureToggles"].Obj? then config["featureToggles"].fields else map[];
      var feature := Get(toggles, key);
      if Truthy(feature) then Read(if feature.value.Obj? then Get(feature.value.fields, "enabled") else None)
      else Read(Some(Bool(false)))
  }

  /** In the factory configuration three features are on, teamMissions is
    * off and every other key reads as off. */
  lemma DefaultFeatures(loadedAt: string, key: string)
    ensures FeatureStatus(DefaultConfig(loadedAt), "teamMissions") == Read(Some(Bool(false)))
    ensures FeatureStatus(DefaultConfig(loadedAt), "salesLabAdvancedMode") == Read(Some(Bool(true)))
    ensures FeatureStatus(DefaultConfig(loadedAt), "gamification") == Read(Some(Bool(true)))
    ensures FeatureStatus(DefaultConfig(loadedAt), "insightsEngine") == Read(Some(Bool(true)))
    ensures key !in {"teamMissions", "salesLabAdvancedMode", "gamification", "insightsEngine"} ==>
      FeatureStatus(DefaultConfig(loadedAt), key) == Read(Some(Bool(false)))
  {
    var c := DefaultConfig(loadedAt);
    assert "featureToggles" in c && c["featureToggles"] == Obj(DefaultToggles());
    var t := DefaultToggles();
    assert t["teamMissions"].fields["enabled"] == Bool(false);
  }

  /** The version string an update at clock reading `nowMs` stores. */
  function NewVersion(nowMs: nat): string
  {
    "v2." + NatToString(nowMs)
  }

  /** `{...config, ...partial, version, updatedAt}`: each top-level key of
    * the partial replaces the stored value wholesale (no nested merge), the
    * other keys stay, and version and timestamp are always new. */
  function MergeSettings(config: Record, partial: Record, nowMs: nat, now: string): (c: Record)
    ensures Get(c, "version") == Some(Str(NewVersion(nowMs)))
    ensures Get(c, "updatedAt") == Some(Str(now))
    ensures forall k :: k in partial && k !in {"version", "updatedAt"} ==> k in c && c[k] == partial[k]
    ensures forall k :: k in config && k !in partial && k !in {"version", "updatedAt"} ==> k in c && c[k] == config[k]
    ensures c.Keys == config.Keys + partial.Keys + {"version", "updatedAt"}
  {
    Merge(Merge(config, partial), map["version" := Str(NewVersion(nowMs)), "updatedAt" := Str(now)])
  }

  /** After an update, features read from the partial's toggle table when
    * the partial carries one (wholesale, the old toggles are gone) and from
    * the old configuration's otherwise. */
  lemma FeatureStatusAfterMerge(config: Record, partial: Record, nowMs: nat, now: string, key: string)
    ensures "featureToggles" in partial ==>
      FeatureStatus(MergeSettings(config, partial, nowMs, now), key) == FeatureStatus(partial, key)
    ensures "featureToggles" !in partial ==>
      FeatureStatus(MergeSettings(config, partial, nowMs, now), key) == FeatureStatus(config, key)
  {
    var c := MergeSettings(config, partial, nowMs, now);
    assert HasToggleTable(c) <==> if "featureToggles" in partial then HasToggleTable(partial) else HasToggleTable(config);
  }

  /** A reload callback, compared by identity. */
  type Callback = nat

  /** `listeners.filter(cb => cb !== callback)`. */
  function Without(listeners: seq<Callback>, cb: Callback): seq<Callback>
  {
    Filter(x => x != cb, listeners)
  }

  /** Unsubscribing removes every registration of that callback and keeps
    * every other one, in order. */
  lemma WithoutFacts(listeners: seq<Callback>, cb: Callback, other: Callback)
    ensures cb !in Without(listeners, cb)
    ensures other != cb ==> multiset(Without(listeners, cb))[other] == multiset(listeners)[other]
    ensures IsSubsequence(Without(listeners, cb), listeners)
  {
    FilterMembership(x => x != cb, listeners, cb);
    FilterCount(x => x != cb, listeners, other);
    FilterIsSubsequence(x => x != cb, listeners);
  }

  /** One listener call: which callback got which configuration, and
    * whether it threw (and the error was logged). */
  datatype Call = Call(cb: Callback, config: Record, threw: bool)

  class SystemSettingsService {
    var config: Record
    var listeners: seq<Callback>

    constructor(loadedAt: string)
      ensures config == DefaultConfig(loadedAt) && listeners == []
    {
      config := DefaultConfig(loadedAt);
      listeners := [];
    }

    /** `getConfig()`: a top-level copy; as a value it cannot alias the
      * stored configuration. */
    function GetConfig(): (c: Record)
      reads this
      ensures c == config
    {
      config
    }

    /** `getFeatureStatus(key)` on the current configuration: it throws
      * exactly when the toggle table is missing or `null`, and a key the
      * table does not hold reads as off. */
    function GetFeatureStatus(key: string): (r: StatusRead)
      reads this
      ensures r == TypeError <==> !HasToggleTable(config)
      ensures HasToggleTable(config) && !(config["featureToggles"].Obj? && key in config["featureToggles"].fields)
        ==> r == Read(Some(Bool(false)))
    {
      FeatureStatus(config, key)
    }

    /** `onReload(cb)`: registers the callback at the end. */
    method OnReload(cb: Callback)
      modifies this
      ensures listeners == old(listeners) + [cb] && config == old(config)
    {
      listeners := listeners + [cb];
    }

    /** The function `onReload` returns: drop the callback. */
    method Unsubscribe(cb: Callback)
      modifies this
      ensures listeners == Without(old(listeners), cb) && config == old(config)
    {
      listeners := Filter(x => x != cb, listeners);
    }

    /** `_notifyListeners()`: every listener is called once, in registration
      * order, with the current configuration; `throws` says which callbacks
      * throw, and a throwing callback does not stop the ones after it. */
    method NotifyListeners(throws: Callback -> bool) returns (calls: seq<Call>)
      ensures |calls| == |listeners|
      ensures forall i :: 0 <= i < |calls| ==>
        calls[i] == Call(listeners[i], config, throws(listeners[i]))
    {
      calls := [];
      var i := 0;
      while i < |listeners|
        invariant 0 <= i <= |listeners|
        invariant |calls| == i
        invariant forall j :: 0 <= j < i ==> calls[j] == Call(listeners[j], config, throws(listeners[j]))
      {
        calls := calls + [Call(listeners[i], config, throws(listeners[i]))];
        i := i + 1;
      }
    }

    /** `updateSettings(partial)`: merge, notify, and answer with the
      * version stored. */
    method UpdateSettings(partial: Record, nowMs: nat, now: string, throws: Callback -> bool)
      returns (success: bool, version: string, calls: seq<Call>)
      modifies this
      ensures config == MergeSettings(old(config), partial, nowMs, now)
      ensures listeners == old(listeners)
      ensures success && version == NewVersion(nowMs)
      ensures Get(config, "version") == Some(Str(version))
      ensures |calls| == |listeners|
      ensures forall i :: 0 <= i < |calls| ==> calls[i] == Call(listeners[i], config, throws(listeners[i]))
    {
      var newVersion := NewVersion(nowMs);
      config := Merge(Merge(config, partial), map["version" := Str(newVersion), "updatedAt" := Str(now)]);
      calls := NotifyListeners(throws);
      success, version := true, newVersion;
    }
  }
}
