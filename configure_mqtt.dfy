/**
 * The MQTT configuration helper (scripts/utility/hb_configure_mqtt.py): the
 * environment-over-existing-over-default precedence rule and the merge of
 * the `mqtt_bridge` settings and the instance id into the client
 * configuration document.
 *
 * Reading and writing the YAML file are not modelled: the loaded document is
 * a parameter (`None` when the file does not exist) and the document that
 * would be written is the result. The process environment is a map.
 */
module ConfigureMqtt {
  import opened Wrappers
  import Strings

  /** A YAML value as `yaml.safe_load` returns it. */
  datatype Yaml =
    | YNull
    | YBool(b: bool)
    | YInt(i: int)
    | YReal(r: real)
    | YStr(s: string)
    | YList(items: seq<Yaml>)
    | YMap(entries: map<string, Yaml>)

  const DefaultHost: string := "localhost"
  const DefaultPort: string := "1883"
  const DefaultInstanceId: string := "lambdaplex-testbot"

  const BridgeKey: string := "mqtt_bridge"
  const HostKey: string := "mqtt_host"
  const PortKey: string := "mqtt_port"
  const AutostartKey: string := "mqtt_autostart"
  const InstanceIdKey: string := "instance_id"

  // ---------------------------------------------------------------------------
  // _get_env_or_existing
  // ---------------------------------------------------------------------------

  /** `d.get(key)`: a missing key and a YAML null both read as `None`. */
  function Existing(d: map<string, Yaml>, key: string): (r: Option<Yaml>)
    ensures r.Some? <==> key in d && d[key] != YNull
    ensures r.Some? ==> r.value == d[key]
  {
    if key in d && d[key] != YNull then Some(d[key]) else None
  }

  /**
   * `_get_env_or_existing`: a set, non-empty environment value wins; then an
   * existing value; then the default.
   */
  function EnvOrExisting(env: map<string, string>, key: string, existing: Option<Yaml>, default: Yaml): (r: Yaml)
    ensures key in env && env[key] != "" ==> r == YStr(env[key])
    ensures !(key in env && env[key] != "") && existing.Some? ==> r == existing.value
    ensures !(key in env && env[key] != "") && existing.None? ==> r == default
  {
    if key in env && env[key] != "" then YStr(env[key])
    else if existing.Some? then existing.value
    else default
  }

  /** Python's `int(...)` of a value, `None` where it raises. */
  function IntOf(v: Yaml): (r: Option<int>)
    ensures v.YInt? ==> r == Some(v.i)
    ensures v.YStr? ==> r == Strings.ParseInt(v.s)
    ensures v.YNull? || v.YList? || v.YMap? ==> r.None?
  {
    match v
    case YInt(i) => Some(i)
    case YBool(b) => Some(if b then 1 else 0)
    case YReal(x) => Some(if x >= 0.0 then x.Floor else -((-x).Floor))
    case YStr(s) => Strings.ParseInt(s)
    case _ => None
  }

  /** `int(x)` of a float truncates toward zero. */
  lemma IntOfRealTruncates(x: real)
    ensures IntOf(YReal(x)).Some?
    ensures var n := IntOf(YReal(x)).value;
            && (x >= 0.0 ==> n as real <= x < n as real + 1.0)
            && (x < 0.0 ==> n as real - 1.0 < x <= n as real)
  {
  }

  // ---------------------------------------------------------------------------
  // main
  // ---------------------------------------------------------------------------

  /** The top level of the loaded document, empty unless it is a mapping. */
  function DocumentOf(loaded: Option<Yaml>): map<string, Yaml> {
    if loaded.Some? && loaded.value.YMap? then loaded.value.entries else map[]
  }

  /** The `mqtt_bridge` section, empty unless it is a mapping. */
  function BridgeOf(data: map<string, Yaml>): map<string, Yaml> {
    if BridgeKey in data && data[BridgeKey].YMap? then data[BridgeKey].entries else map[]
  }

  /** The keys the script writes are pairwise distinct. */
  lemma KeysDistinct()
    ensures HostKey != PortKey && HostKey != AutostartKey && PortKey != AutostartKey
    ensures BridgeKey != InstanceIdKey
  {
    assert HostKey[5] != PortKey[5];
    assert |HostKey| != |AutostartKey| && |PortKey| != |AutostartKey|;
    assert BridgeKey[0] != InstanceIdKey[0];
  }

  /** The host: `MQTT_HOST`, else the bridge's, else the default. */
  function Host(env: map<string, string>, bridge: map<string, Yaml>): Yaml {
    EnvOrExisting(env, "MQTT_HOST", Existing(bridge, HostKey), YStr(DefaultHost))
  }

  /** The port before parsing: `MQTT_PORT`, else the bridge's, else the default. */
  function PortRaw(env: map<string, string>, bridge: map<string, Yaml>): Yaml {
    EnvOrExisting(env, "MQTT_PORT", Existing(bridge, PortKey), YStr(DefaultPort))
  }

  /** The instance id: `HB_INSTANCE_ID`, else the document's, else the default. */
  function InstanceId(env: map<string, string>, data: map<string, Yaml>): Yaml {
    EnvOrExisting(env, "HB_INSTANCE_ID", Existing(data, InstanceIdKey), YStr(DefaultInstanceId))
  }

  /** The bridge section after the three assignments. */
  function MergedBridge(bridge: map<string, Yaml>, host: Yaml, port: int): map<string, Yaml> {
    bridge[HostKey := host][PortKey := YInt(port)][AutostartKey := YBool(true)]
  }

  /** The document after the bridge section and then the instance id are written. */
  function Written(data: map<string, Yaml>, env: map<string, string>, port: int): map<string, Yaml> {
    var bridge := BridgeOf(data);
    var data' := data[BridgeKey := YMap(MergedBridge(bridge, Host(env, bridge), port))];
    data'[InstanceIdKey := InstanceId(env, data')]
  }

  /**
   * The document `main` writes, or `None` when the port does not parse and
   * the script exits before writing.
   */
  function Configured(loaded: Option<Yaml>, env: map<string, string>): Option<map<string, Yaml>> {
    var data := DocumentOf(loaded);
    match IntOf(PortRaw(env, BridgeOf(data)))
    case None => None
    case Some(port) => Some(Written(data, env, port))
  }

  /**
   * `main`, on the loaded document: the bridge section and the top level are
   * updated in place, key by key.
   */
  method Configure(loaded: Option<Yaml>, env: map<string, string>) returns (written: Option<map<string, Yaml>>)
    ensures written == Configured(loaded, env)
  {
    var data: map<string, Yaml> := map[];
    if loaded.Some? && loaded.value.YMap? {
      data := loaded.value.entries;
    }
    var mqttBridge: map<string, Yaml> := map[];
    if BridgeKey in data && data[BridgeKey].YMap? {
      mqttBridge := data[BridgeKey].entries;
    }
    var host := EnvOrExisting(env, "MQTT_HOST", Existing(mqttBridge, HostKey), YStr(DefaultHost));
    var portRaw := EnvOrExisting(env, "MQTT_PORT", Existing(mqttBridge, PortKey), YStr(DefaultPort));
    var port := IntOf(portRaw);
    if port.None? {
      return None;
    }
    mqttBridge := mqttBridge[HostKey := host];
    mqttBridge := mqttBridge[PortKey := YInt(port.value)];
    mqttBridge := mqttBridge[AutostartKey := YBool(true)];
    data := data[BridgeKey := YMap(mqttBridge)];
    data := data[InstanceIdKey := EnvOrExisting(env, "HB_INSTANCE_ID", Existing(data, InstanceIdKey), YStr(DefaultInstanceId))];
    return Some(data);
  }

  /**
   * The merged bridge holds the host, the parsed port and autostart, and
   * keeps every other key of the loaded bridge.
   */
  lemma MergedBridgeFacts(bridge: map<string, Yaml>, host: Yaml, port: int)
    ensures var b := MergedBridge(bridge, host, port);
            && b.Keys == bridge.Keys + {HostKey, PortKey, AutostartKey}
            && b[HostKey] == host && b[PortKey] == YInt(port) && b[AutostartKey] == YBool(true)
            && forall k | k in bridge && k != HostKey && k != PortKey && k != AutostartKey :: b[k] == bridge[k]
  {
    KeysDistinct();
  }

  /**
   * What the written document holds: the bridge host, the parsed port and
   * autostart set, every other bridge key and every other top-level key kept,
   * and the instance id chosen by the same precedence rule. A port that does
   * not parse means nothing is written.
   */
  lemma ConfiguredFacts(loaded: Option<Yaml>, env: map<string, string>)
    ensures var data := DocumentOf(loaded);
            var bridge := BridgeOf(data);
            && (Configured(loaded, env).None? <==> IntOf(PortRaw(env, bridge)).None?)
            && (Configured(loaded, env).Some? ==>
                  var out := Configured(loaded, env).value;
                  && out.Keys == data.Keys + {BridgeKey, InstanceIdKey}
                  && out[BridgeKey] == YMap(MergedBridge(bridge, Host(env, bridge), IntOf(PortRaw(env, bridge)).value))
                  && out[InstanceIdKey] == InstanceId(env, data)
                  && forall k | k in data && k != BridgeKey && k != InstanceIdKey :: out[k] == data[k])
  {
    var data := DocumentOf(loaded);
    var port := IntOf(PortRaw(env, BridgeOf(data)));
    if port.Some? {
      WrittenFacts(data, env, port.value);
    }
  }

  /** The shape of the written document, for a port that parsed. */
  lemma WrittenFacts(data: map<string, Yaml>, env: map<string, string>, port: int)
    ensures var bridge := BridgeOf(data);
            var out := Written(data, env, port);
            && out.Keys == data.Keys + {BridgeKey, InstanceIdKey}
            && out[BridgeKey] == YMap(MergedBridge(bridge, Host(env, bridge), port))
            && out[InstanceIdKey] == InstanceId(env, data)
            && forall k | k in data && k != BridgeKey && k != InstanceIdKey :: out[k] == data[k]
  {
    KeysDistinct();
    var bridge := BridgeOf(data);
    InstanceIdIgnoresBridge(env, data, YMap(MergedBridge(bridge, Host(env, bridge), port)));
  }

  /** Writing the bridge section does not change which instance id is chosen. */
  lemma InstanceIdIgnoresBridge(env: map<string, string>, data: map<string, Yaml>, v: Yaml)
    ensures InstanceId(env, data[BridgeKey := v]) == InstanceId(env, data)
  {
    KeysDistinct();
    assert Existing(data[BridgeKey := v], InstanceIdKey) == Existing(data, InstanceIdKey);
  }

  /** Writing a key back with the value it already has changes nothing. */
  lemma UpdateWithSame<K, V>(m: map<K, V>, k: K, v: V)
    requires k in m && m[k] == v
    ensures m[k := v] == m
  {
  }

  /** The precedence rule never yields a null when the default is not one. */
  lemma EnvOrExistingNotNull(env: map<string, string>, key: string, existing: Option<Yaml>, default: Yaml)
    requires existing.Some? ==> existing.value != YNull
    requires default != YNull
    ensures EnvOrExisting(env, key, existing, default) != YNull
  {
  }

  /** Merging a bridge that already holds the merged values changes nothing. */
  lemma MergedBridgeIsStable(bridge: map<string, Yaml>, host: Yaml, port: int)
    ensures MergedBridge(MergedBridge(bridge, host, port), host, port) == MergedBridge(bridge, host, port)
  {
    var b := MergedBridge(bridge, host, port);
    MergedBridgeFacts(bridge, host, port);
    UpdateWithSame(b, HostKey, host);
    UpdateWithSame(b, PortKey, YInt(port));
    UpdateWithSame(b, AutostartKey, YBool(true));
  }

  /** Read back from the merged bridge, the host and the port are the ones merged in. */
  lemma MergedBridgeReadsBack(env: map<string, string>, bridge: map<string, Yaml>, port: int)
    requires IntOf(PortRaw(env, bridge)) == Some(port)
    ensures var b := MergedBridge(bridge, Host(env, bridge), port);
            Host(env, b) == Host(env, bridge) && IntOf(PortRaw(env, b)) == Some(port)
  {
    EnvOrExistingNotNull(env, "MQTT_HOST", Existing(bridge, HostKey), YStr(DefaultHost));
    MergedBridgeFacts(bridge, Host(env, bridge), port);
  }

  /** An instance id already chosen by the precedence rule is chosen again. */
  lemma InstanceIdIsStable(env: map<string, string>, data: map<string, Yaml>, out: map<string, Yaml>)
    requires InstanceIdKey in out && out[InstanceIdKey] == InstanceId(env, data)
    ensures InstanceId(env, out) == InstanceId(env, data)
  {
    EnvOrExistingNotNull(env, "HB_INSTANCE_ID", Existing(data, InstanceIdKey), YStr(DefaultInstanceId));
  }

  /** Running the script a second time with the same environment changes nothing more. */
  lemma ConfigureIsIdempotent(loaded: Option<Yaml>, env: map<string, string>)
    requires Configured(loaded, env).Some?
    ensures Configured(Some(YMap(Configured(loaded, env).value)), env) == Configured(loaded, env)
  {
    var data := DocumentOf(loaded);
    var bridge := BridgeOf(data);
    var port := IntOf(PortRaw(env, bridge)).value;
    var out := Written(data, env, port);
    assert Configured(loaded, env) == Some(out);
    WrittenFacts(data, env, port);
    var b := MergedBridge(bridge, Host(env, bridge), port);
    assert BridgeOf(out) == b;
    MergedBridgeReadsBack(env, bridge, port);
    assert Configured(Some(YMap(out)), env) == Some(Written(out, env, port));
    MergedBridgeIsStable(bridge, Host(env, bridge), port);
    UpdateWithSame(out, BridgeKey, YMap(b));
    InstanceIdIsStable(env, data, out);
    UpdateWithSame(out, InstanceIdKey, out[InstanceIdKey]);
  }
}
