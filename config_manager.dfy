/** The agent's configuration store (agent/src/config_manager.py): a map of
    settings that starts from built-in defaults, is overlaid by the JSON file
    `config.json`, may be changed key by key or by the server through a
    whitelist, and is written back to the file. */
module ConfigManager {
  import opened Common
  import Text

  type Config = map<string, Value>

  /** What `config.json` holds when the store looks at it: no file, a file
      that cannot be read or is not a JSON object, or a JSON object. */
  datatype ConfigFile = Missing | Unreadable | Json(content: Config)

  /** The built-in configuration of `_load_default_config`. */
  function DefaultConfig(): (d: Config)
    ensures "api_url" in d && d["api_url"] == Str("http://localhost:8000/api/v1")
    ensures "api_key" in d && d["api_key"] == Str("")
    ensures "site_id" in d && d["site_id"] == Str("DEFAULT")
    ensures "company_name" in d && d["company_name"] == Str("Default Company")
    ensures "log_level" in d && d["log_level"] == Str("INFO")
    ensures "offline_cache_days" in d && d["offline_cache_days"] == Int(7)
    ensures "update_interval" in d && d["update_interval"] == Int(300)
    ensures "heartbeat_interval" in d && d["heartbeat_interval"] == Int(60)
    ensures "pc_name" in d && d["pc_name"] == Str("") && "username" in d && d["username"] == Str("")
  {
    map[
      "api_url" := Str("http://localhost:8000/api/v1"),
      "api_key" := Str(""),
      "site_id" := Str("DEFAULT"),
      "company_name" := Str("Default Company"),
      "agent_version" := Str("1.0.0"),
      "update_interval" := Int(300),
      "log_level" := Str("INFO"),
      "offline_cache_days" := Int(7),
      "max_log_size_mb" := Int(100),
      "retry_attempts" := Int(3),
      "retry_delay" := Int(30),
      "heartbeat_interval" := Int(60),
      "auto_register" := Bool(true),
      "pc_name" := Str(""),
      "username" := Str("")
    ]
  }

  /** `config.update(file_config)`: the file's keys win, the others keep
      their values; a missing or unreadable file changes nothing. */
  function Overlay(base: Config, file: ConfigFile): (r: Config)
    ensures file.Json? ==> r.Keys == base.Keys + file.content.Keys
    ensures file.Json? ==> forall k :: k in file.content ==> r[k] == file.content[k]
    ensures forall k :: k in base && !(file.Json? && k in file.content) ==> k in r && r[k] == base[k]
    ensures !file.Json? ==> r == base
  {
    match file
    case Json(content) => base + content
    case _ => base
  }

  /** The keys the server may change. */
  const UpdatableKeys: seq<string> :=
    ["update_interval", "log_level", "offline_cache_days", "max_log_size_mb", "heartbeat_interval"]

  /** The fields `validate_config` requires. */
  const RequiredFields: seq<string> := ["api_url", "site_id", "company_name"]

  /** `key in server_config and server_config[key] != self.config.get(key)`. */
  predicate Differs(c: Config, server: Config, key: string)
  {
    key in server && !PyEq(server[key], Get(c, key, Null))
  }

  /** One step of `update_from_server`'s loop. */
  function ServerStep(c: Config, server: Config, key: string): Config
  {
    if Differs(c, server, key) then c[key := server[key]] else c
  }

  /** The configuration after `update_from_server` has looked at `keys`, in
      order. */
  function ServerOverlay(c: Config, server: Config, keys: seq<string>): (r: Config)
    ensures forall k :: k !in keys ==> (k in r <==> k in c) && (k in c ==> r[k] == c[k])
    decreases |keys|
  {
    if |keys| == 0 then c
    else ServerStep(ServerOverlay(c, server, keys[..|keys| - 1]), server, keys[|keys| - 1])
  }

  /** The loop of `update_from_server` after one more key. */
  lemma ServerOverlayNext(c: Config, server: Config, keys: seq<string>, i: nat)
    requires NoDuplicates(keys) && i < |keys|
    ensures ServerOverlay(c, server, keys[..i + 1])
      == ServerStep(ServerOverlay(c, server, keys[..i]), server, keys[i])
    ensures Differs(ServerOverlay(c, server, keys[..i]), server, keys[i]) == Differs(c, server, keys[i])
  {
    assert keys[..i + 1][..i] == keys[..i];
    assert keys[i] !in keys[..i];
  }

  predicate NoDuplicates(keys: seq<string>)
  {
    forall i, j :: 0 <= i < j < |keys| ==> keys[i] != keys[j]
  }

  /** A whitelisted key takes the server's value exactly when that value
      differs from the current one; every other key is left alone. */
  lemma {:induction false} ServerOverlayEffect(c: Config, server: Config, keys: seq<string>, k: string)
    requires NoDuplicates(keys)
    requires k in keys
    ensures var r := ServerOverlay(c, server, keys);
      Differs(c, server, k) ==> k in r && r[k] == server[k]
    ensures var r := ServerOverlay(c, server, keys);
      !Differs(c, server, k) ==> (k in r <==> k in c) && (k in c ==> r[k] == c[k])
    decreases |keys|
  {
    var init := keys[..|keys| - 1];
    var last := keys[|keys| - 1];
    if k == last {
      assert k !in init;
    } else {
      assert k in init;
      assert NoDuplicates(init);
      ServerOverlayEffect(c, server, init, k);
    }
  }

  /** With nothing differing, the overlay is the identity. */
  lemma {:induction false} ServerOverlayUnchanged(c: Config, server: Config, keys: seq<string>)
    requires forall k :: k in keys ==> !Differs(c, server, k)
    ensures ServerOverlay(c, server, keys) == c
    decreases |keys|
  {
    if |keys| > 0 {
      ServerOverlayUnchanged(c, server, keys[..|keys| - 1]);
    }
  }

  /** `get_log_level`: the stored `log_level` upper-cased, `"INFO"` when the
      key is absent; `None` where Python raises because the stored value is
      not a string. */
  function LogLevel(c: Config): (r: Option<string>)
    ensures "log_level" !in c ==> r == Some("INFO")
    ensures "log_level" in c && c["log_level"].Str? ==> r == Some(Text.Upper(c["log_level"].s))
    ensures "log_level" in c && !c["log_level"].Str? ==> r == None
  {
    match Get(c, "log_level", Str("INFO"))
    case Str(s) =>
      assert Text.Upper("INFO") == "INFO";
      Some(Text.Upper(s))
    case _ => None
  }

  /** What `get_system_info` reports for registration. */
  datatype SystemInfo = SystemInfo(
    pcName: Value, username: Value, osVersion: string, pythonVersion: string, agentVersion: Value)

  /** Whether a host query of `get_system_info` raises.  The host's answers
      are parameters, `None` standing for a query that raises;
      `gethostname` and `getuser` are asked only when the configured name
      is falsy, the platform queries always. */
  predicate HostQueryFails(c: Config, hostname: Option<string>, loginUser: Option<string>,
                           osVersion: Option<string>, pythonVersion: Option<string>)
  {
    || (!Truthy(Get(c, "pc_name", Null)) && hostname.None?)
    || (!Truthy(Get(c, "username", Null)) && loginUser.None?)
    || osVersion.None? || pythonVersion.None?
  }

  /** `get_system_info`: configured names win when they are truthy,
      otherwise the machine's own; when a host query raises, every field
      but agent_version is "Unknown". */
  function SystemInfoOf(c: Config, hostname: Option<string>, loginUser: Option<string>,
                        osVersion: Option<string>, pythonVersion: Option<string>): (info: SystemInfo)
    ensures info.agentVersion == Get(c, "agent_version", Str("1.0.0"))
    ensures HostQueryFails(c, hostname, loginUser, osVersion, pythonVersion) ==>
              && info.pcName == Str("Unknown") && info.username == Str("Unknown")
              && info.osVersion == "Unknown" && info.pythonVersion == "Unknown"
    ensures !HostQueryFails(c, hostname, loginUser, osVersion, pythonVersion) ==>
              && (Truthy(Get(c, "pc_name", Null)) ==> info.pcName == c["pc_name"])
              && (!Truthy(Get(c, "pc_name", Null)) ==> info.pcName == Str(hostname.value))
              && (Truthy(Get(c, "username", Null)) ==> info.username == c["username"])
              && (!Truthy(Get(c, "username", Null)) ==> info.username == Str(loginUser.value))
              && info.osVersion == osVersion.value && info.pythonVersion == pythonVersion.value
  {
    var pc := Get(c, "pc_name", Null);
    var user := Get(c, "username", Null);
    var agentVersion := Get(c, "agent_version", Str("1.0.0"));
    if HostQueryFails(c, hostname, loginUser, osVersion, pythonVersion) then
      SystemInfo(Str("Unknown"), Str("Unknown"), "Unknown", "Unknown", agentVersion)
    else
      SystemInfo(
        if Truthy(pc) then pc else Str(hostname.value),
        if Truthy(user) then user else Str(loginUser.value),
        osVersion.value, pythonVersion.value, agentVersion)
  }

  class ConfigManager {
    var config: Config
    /** The content of `config.json` on disk. */
    var file: ConfigFile
    /** Whether writing `config.json` succeeds; a failed write is logged and
        leaves the file as it was. */
    var writable: bool

    /** `__init__`: defaults, then the file on top of them. */
    constructor (onDisk: ConfigFile, canWrite: bool)
      ensures config == Overlay(DefaultConfig(), onDisk)
      ensures file == onDisk && writable == canWrite
    {
      config := DefaultConfig();
      file := onDisk;
      writable := canWrite;
      new;
      LoadConfig();
    }

    /** `load_config`. */
    method LoadConfig()
      modifies this
      ensures config == Overlay(old(config), file)
      ensures file == old(file) && writable == old(writable)
    {
      match file {
        case Json(content) => config := config + content;
        case _ =>
      }
    }

    /** `save_config`. */
    method SaveConfig()
      modifies this
      ensures config == old(config) && writable == old(writable)
      ensures file == if writable then Json(config) else old(file)
    {
      if writable {
        file := Json(config);
      }
    }

    /** `get(key, default)`. */
    function GetValue(key: string, default: Value := Null): (v: Value)
      reads this
      ensures key in config ==> v == config[key]
      ensures key !in config ==> v == default
    {
      Get(config, key, default)
    }

    /** `set(key, value)`: only that key changes. */
    method Set(key: string, value: Value)
      modifies this
      ensures config == old(config)[key := value]
      ensures file == old(file) && writable == old(writable)
      ensures GetValue(key) == value
    {
      config := config[key := value];
    }

    /** `update_from_server`: looks at the whitelisted keys in order, takes
        each server value that differs, and saves only if something changed. */
    method UpdateFromServer(server: Config) returns (updated: bool)
      modifies this
      ensures config == ServerOverlay(old(config), server, UpdatableKeys)
      ensures updated <==> exists k :: k in UpdatableKeys && Differs(old(config), server, k)
      ensures file == if updated && writable then Json(config) else old(file)
      ensures writable == old(writable)
    {
      var keys := UpdatableKeys;
      assert NoDuplicates(keys);
      ghost var start := config;
      updated := false;
      var i := 0;
      while i < |keys|
        invariant 0 <= i <= |keys|
        invariant config == ServerOverlay(start, server, keys[..i])
        invariant updated <==> exists j :: 0 <= j < i && Differs(start, server, keys[j])
        invariant file == old(file) && writable == old(writable)
      {
        var key := keys[i];
        ServerOverlayNext(start, server, keys, i);
        if key in server && !PyEq(server[key], GetValue(key)) {
          config := config[key := server[key]];
          updated := true;
        }
        i := i + 1;
      }
      assert keys[..i] == keys;
      assert updated <==> exists k :: k in keys && Differs(start, server, k) by {
        if exists k :: k in keys && Differs(start, server, k) {
          var k :| k in keys && Differs(start, server, k);
          var j :| 0 <= j < |keys| && keys[j] == k;
        }
      }
      if updated {
        SaveConfig();
      }
    }

    /** `validate_config`: every required field present and truthy. */
    method ValidateConfig() returns (ok: bool)
      ensures ok <==> forall f :: f in RequiredFields ==> Truthy(Get(config, f, Null))
      ensures ok <==> Truthy(Get(config, "api_url", Null)) && Truthy(Get(config, "site_id", Null))
                      && Truthy(Get(config, "company_name", Null))
    {
      var fields := RequiredFields;
      var i := 0;
      while i < |fields|
        invariant 0 <= i <= |fields|
        invariant forall j :: 0 <= j < i ==> Truthy(Get(config, fields[j], Null))
      {
        if !Truthy(GetValue(fields[i])) {
          return false;
        }
        i := i + 1;
      }
      return true;
    }

    /** `reset_to_defaults`: the defaults, then saved. */
    method ResetToDefaults()
      modifies this
      ensures config == DefaultConfig()
      ensures file == if writable then Json(DefaultConfig()) else old(file)
      ensures writable == old(writable)
    {
      config := DefaultConfig();
      SaveConfig();
    }

    /** `get_log_level`. */
    function GetLogLevel(): (r: Option<string>)
      reads this
      ensures r == LogLevel(config)
      ensures "log_level" !in config ==> r == Some("INFO")
    {
      LogLevel(config)
    }
  }

  /** Saving and loading again restores the configuration. */
  method SaveThenLoad(m: ConfigManager)
    requires m.writable
    modifies m
    ensures m.config == old(m.config)
  {
    m.SaveConfig();
    m.LoadConfig();
    assert m.config == old(m.config) + old(m.config);
  }
}
