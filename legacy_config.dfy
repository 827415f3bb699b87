/** The configuration of src/config.py: loading the file, the strict
    `ConfigSection`, the placing of API keys from the environment into the
    nested configuration, and `get_api_key`. The file's existence and its
    parsed top-level mapping are the `file` parameter; the environment is
    a map from variable names to values. */
module LegacyConfig {
  import opened Wrappers
  import opened Values
  import CoreConfig

  datatype AttributeError = AttributeError(key: string)
  datatype TypeError = TypeError

  /** The strict `ConfigSection`. */
  datatype ConfigSection = ConfigSection(section: map<string, Value>) {
    /** `__getattr__`: a missing key raises; a present value comes back as
        it is, a dictionary included. */
    function GetAttr(key: string): (r: Result<Value, AttributeError>)
      ensures r.Success? <==> key in section
      ensures r.Success? ==> r.value == section[key]
      ensures r.Failure? ==> r.error == AttributeError(key)
    {
      if key in section then Success(section[key]) else Failure(AttributeError(key))
    }

    /** `get`: the value, or the default for a missing key. */
    function Get(key: string, default: Value): (r: Value)
      ensures key in section ==> r == section[key]
      ensures key !in section ==> r == default
    {
      if key in section then section[key] else default
    }
  }

  /** Where the strict section answers, the lenient one of src/core/config.py
      gives the same value (a dictionary wrapped as a section); where the
      strict one raises, the lenient one gives `None`. */
  lemma StrictAgreesWithLenient(section: map<string, Value>, key: string)
    ensures var strict := ConfigSection(section).GetAttr(key);
      var lenient := CoreConfig.ConfigSection(section).GetAttr(key);
      (strict.Success? <==> CoreConfig.ConfigSection(section).Contains(key))
      && (strict.Success? ==> CoreConfig.AttrValue(lenient) == strict.value)
      && (strict.Failure? ==> lenient == CoreConfig.Plain(Null))
  {
  }

  /** `ConfigSection(self._config.get(name, {}))`; a section that is present
      but not a dictionary gives `None`. */
  function SectionOf(config: map<string, Value>, name: string): (r: Option<ConfigSection>)
    ensures name !in config ==> r == Some(ConfigSection(map[]))
    ensures name in config && config[name].Dict? ==> r == Some(ConfigSection(config[name].entries))
    ensures name in config && !config[name].Dict? ==> r.None?
  {
    if name !in config then Some(ConfigSection(map[]))
    else if config[name].Dict? then Some(ConfigSection(config[name].entries))
    else None
  }

  /** `config.<section>.<key>`: present exactly when the section holds the
      key. */
  function Lookup(config: map<string, Value>, section: string, key: string): (r: Result<Value, AttributeError>)
    ensures r.Success? <==>
      section in config && config[section].Dict? && key in config[section].entries
    ensures r.Success? ==> r.value == config[section].entries[key]
  {
    var s := SectionOf(config, section);
    if s.None? then Failure(AttributeError(key)) else s.value.GetAttr(key)
  }

  /** Attribute access on a value the YAML loader produced (a dictionary, a
      list, a string, a number, a boolean or `None`): none of them has a
      configuration key as an attribute, so the access raises. */
  function RawAttr(v: Value, attr: string): (r: Result<Value, AttributeError>)
    ensures r == Failure(AttributeError(attr))
  {
    Failure(AttributeError(attr))
  }

  /** `config.<section>.<key>.<attr>`, as written: the strict section
      returns the inner dictionary unwrapped, so the last step is an
      attribute access on a plain value, and the chain raises whatever the
      configuration holds. */
  function AttrChain(config: map<string, Value>, section: string, key: string, attr: string): (r: Result<Value, AttributeError>)
    ensures r.Failure?
    ensures Lookup(config, section, key).Success? ==> r.error == AttributeError(attr)
  {
    match Lookup(config, section, key)
    case Failure(e) => Failure(e)
    case Success(v) => RawAttr(v, attr)
  }

  // ---------------------------------------------------- nested dictionaries

  /** The value at `path` through nested dictionaries, when there is one. */
  function GetPath(m: map<string, Value>, path: seq<string>): (r: Option<Value>)
    requires |path| > 0
    ensures r.Some? ==> path[0] in m && (|path| > 1 ==> m[path[0]].Dict?)
    ensures path[0] in m && |path| == 1 ==> r == Some(m[path[0]])
    ensures path[0] in m && |path| > 1 && !m[path[0]].Dict? ==> r.None?
    decreases |path|
  {
    if path[0] !in m then None
    else if |path| == 1 then Some(m[path[0]])
    else if m[path[0]].Dict? then GetPath(m[path[0]].entries, path[1..])
    else None
  }

  /** The intended reading of `config.<section>.<key>.<attr>`: the value
      nested at that path is found whenever it is there. */
  lemma NestedLookupFinds(config: map<string, Value>, section: string, key: string, attr: string)
    requires section in config && config[section].Dict?
    requires key in config[section].entries && config[section].entries[key].Dict?
    requires attr in config[section].entries[key].entries
    ensures GetPath(config, [section, key, attr]) == Some(config[section].entries[key].entries[attr])
    ensures AttrChain(config, section, key, attr).Failure?
  {
    var inner := config[section].entries;
    assert [section, key, attr][1..] == [key, attr];
    assert [key, attr][1..] == [attr];
    assert GetPath(inner[key].entries, [attr]) == Some(inner[key].entries[attr]);
    assert GetPath(inner, [key, attr]) == GetPath(inner[key].entries, [attr]);
  }

  /** The inner loop of `_load_api_keys_from_env`: walk `path`, creating
      missing dictionaries, and store `v` at its end. A value on the way that
      is not a dictionary makes the assignment raise, before anything has
      been changed. */
  function SetPath(m: map<string, Value>, path: seq<string>, v: Value): (r: Result<map<string, Value>, TypeError>)
    requires |path| > 0
    ensures r.Success? ==> path[0] in r.value && r.value.Keys == m.Keys + {path[0]}
    ensures r.Success? ==> forall k :: k in m && k != path[0] ==> r.value[k] == m[k]
    decreases |path|
  {
    if |path| == 1 then Success(m[path[0] := v])
    else
      var child := if path[0] in m then m[path[0]] else Dict(map[]);
      if !child.Dict? then Failure(TypeError)
      else
        match SetPath(child.entries, path[1..], v)
        case Failure(e) => Failure(e)
        case Success(c) => Success(m[path[0] := Dict(c)])
  }

  /** What is stored is found again at the same path. */
  lemma {:induction false} SetThenGet(m: map<string, Value>, path: seq<string>, v: Value)
    requires |path| > 0 && SetPath(m, path, v).Success?
    ensures GetPath(SetPath(m, path, v).value, path) == Some(v)
    decreases |path|
  {
    if |path| > 1 {
      var child := if path[0] in m then m[path[0]] else Dict(map[]);
      SetThenGet(child.entries, path[1..], v);
    }
  }

  /** Every path that parts from `path` somewhere keeps its value: existing
      siblings at every level are preserved. */
  lemma {:induction false} SetKeepsOtherPaths(m: map<string, Value>, path: seq<string>, v: Value, other: seq<string>, i: nat)
    requires |path| > 0 && SetPath(m, path, v).Success?
    requires i < |path| && i < |other| && other[i] != path[i]
    ensures GetPath(SetPath(m, path, v).value, other) == GetPath(m, other)
    decreases |path|
  {
    if other[0] != path[0] {
    } else if |path| > 1 {
      var child := if path[0] in m then m[path[0]] else Dict(map[]);
      var c := SetPath(child.entries, path[1..], v).value;
      assert i > 0;
      if |other| > 1 {
        SetKeepsOtherPaths(child.entries, path[1..], v, other[1..], i - 1);
        if path[0] !in m {
          EmptyHasNoPaths(other[1..]);
        }
      }
    }
  }

  lemma EmptyHasNoPaths(path: seq<string>)
    requires |path| > 0
    ensures GetPath(map[], path) == None
  {
  }

  /** The assignment raises exactly when some proper prefix of the path
      leads to a value that is not a dictionary. */
  lemma {:induction false} SetFailsIff(m: map<string, Value>, path: seq<string>, v: Value)
    requires |path| > 0
    ensures SetPath(m, path, v).Failure? <==>
      exists i :: 1 <= i < |path| && GetPath(m, path[..i]).Some? && !GetPath(m, path[..i]).value.Dict?
    decreases |path|
  {
    if |path| > 1 {
      var child := if path[0] in m then m[path[0]] else Dict(map[]);
      assert path[..1] == [path[0]];
      if child.Dict? {
        SetFailsIff(child.entries, path[1..], v);
        if path[0] in m {
          forall i | 2 <= i < |path|
            ensures GetPath(m, path[..i]) == GetPath(child.entries, path[1..][..i - 1])
          {
            assert path[..i][1..] == path[1..][..i - 1];
          }
          if SetPath(m, path, v).Failure? {
            var j :| 1 <= j < |path[1..]| && GetPath(child.entries, path[1..][..j]).Some?
                     && !GetPath(child.entries, path[1..][..j]).value.Dict?;
            assert GetPath(m, path[..j + 1]) == GetPath(child.entries, path[1..][..j]);
          }
        } else {
          forall i | 1 <= i < |path| ensures GetPath(m, path[..i]).None? {
          }
          forall j | 1 <= j < |path[1..]| ensures GetPath(child.entries, path[1..][..j]).None? {
            EmptyHasNoPaths(path[1..][..j]);
          }
        }
      } else {
        assert GetPath(m, path[..1]) == Some(child);
      }
    }
  }

  // ---------------------------------------------------------- API keys

  /** One entry of `env_mapping`: an environment variable and where its
      value goes. */
  datatype KeyMapping = KeyMapping(variable: string, path: seq<string>)

  /** `env_mapping`, in its order. */
  const Mappings: seq<KeyMapping> := [
    KeyMapping("OPENAI_API_KEY", ["api", "openai", "api_key"]),
    KeyMapping("ANTHROPIC_API_KEY", ["api", "anthropic", "api_key"]),
    KeyMapping("GROQ_API_KEY", ["api", "groq", "api_key"])
  ]

  /** `os.getenv(name)` is truthy: set and non-empty. */
  predicate IsSet(env: map<string, string>, name: string) {
    name in env && env[name] != []
  }

  /** One step of the loop: a set variable is stored at its path. */
  function ApplyMapping(c: map<string, Value>, env: map<string, string>, km: KeyMapping): (r: Result<map<string, Value>, TypeError>)
    requires |km.path| > 0
    ensures !IsSet(env, km.variable) ==> r == Success(c)
    ensures IsSet(env, km.variable) ==> r == SetPath(c, km.path, Str(env[km.variable]))
  {
    if IsSet(env, km.variable) then SetPath(c, km.path, Str(env[km.variable])) else Success(c)
  }

  /** The configuration after the loop, and the error that ended it, if
      any: the stores of the steps before a failing one stay. */
  datatype Applied = Applied(config: map<string, Value>, error: Option<TypeError>)

  function ApplyMappings(c: map<string, Value>, env: map<string, string>, ms: seq<KeyMapping>): (r: Applied)
    requires forall j :: 0 <= j < |ms| ==> |ms[j].path| > 0
    ensures c.Keys <= r.config.Keys
    ensures forall k :: k in r.config && k !in c ==> exists j :: 0 <= j < |ms| && ms[j].path[0] == k
    ensures forall k :: k in c && (forall j :: 0 <= j < |ms| ==> ms[j].path[0] != k) ==> r.config[k] == c[k]
    decreases |ms|
  {
    if ms == [] then Applied(c, None)
    else
      var before := ApplyMappings(c, env, ms[..|ms| - 1]);
      if before.error.Some? then before
      else
        match ApplyMapping(before.config, env, ms[|ms| - 1])
        case Failure(e) => Applied(before.config, Some(e))
        case Success(c') => Applied(c', None)
  }

  /** `_load_api_keys_from_env` on a configuration. */
  function LoadApiKeys(c: map<string, Value>, env: map<string, string>): (r: Applied)
    ensures c.Keys <= r.config.Keys <= c.Keys + {"api"}
    ensures forall k :: k in c && k != "api" ==> r.config[k] == c[k]
  {
    MappingsWriteApi();
    ApplyMappings(c, env, Mappings)
  }

  /** Every entry of `env_mapping` writes below `api`. */
  lemma MappingsWriteApi()
    ensures forall j :: 0 <= j < |Mappings| ==> |Mappings[j].path| == 3 && Mappings[j].path[0] == "api"
  {
  }

  /** With none of the variables set, the configuration is left as it is. */
  lemma {:induction false} UnsetVariablesChangeNothing(c: map<string, Value>, env: map<string, string>, ms: seq<KeyMapping>)
    requires forall j :: 0 <= j < |ms| ==> |ms[j].path| > 0
    requires forall j :: 0 <= j < |ms| ==> !IsSet(env, ms[j].variable)
    ensures ApplyMappings(c, env, ms) == Applied(c, None)
    decreases |ms|
  {
    if ms != [] {
      UnsetVariablesChangeNothing(c, env, ms[..|ms| - 1]);
    }
  }

  /** `get_api_key`: `self.api.get(service, {}).get('api_key')`, with the
      `AttributeError` of a section or entry that is not a dictionary
      caught; `None` is `Null`. */
  function GetApiKey(config: map<string, Value>, service: string): (r: Value)
    ensures r != Null ==>
      ("api" in config && config["api"].Dict?
       && service in config["api"].entries && config["api"].entries[service].Dict?
       && "api_key" in config["api"].entries[service].entries
       && r == config["api"].entries[service].entries["api_key"])
    ensures "api" in config && config["api"].Dict?
      && service in config["api"].entries && config["api"].entries[service].Dict?
      && "api_key" in config["api"].entries[service].entries
      ==> r == config["api"].entries[service].entries["api_key"]
  {
    var api := if "api" in config then config["api"] else Dict(map[]);
    if !api.Dict? then Null
    else
      var entry := if service in api.entries then api.entries[service] else Dict(map[]);
      if !entry.Dict? then Null
      else if "api_key" in entry.entries then entry.entries["api_key"] else Null
  }

  /** `get_api_key` is exactly the nested lookup of `api.<service>.api_key`,
      with `None` for anything missing or not a dictionary on the way. */
  lemma GetApiKeyIsPathLookup(config: map<string, Value>, service: string)
    ensures var p := GetPath(config, ["api", service, "api_key"]);
      GetApiKey(config, service) == if p.Some? then p.value else Null
  {
    var path := ["api", service, "api_key"];
    assert path[1..] == [service, "api_key"];
    assert [service, "api_key"][1..] == ["api_key"];
    if "api" in config && config["api"].Dict? {
      var api := config["api"].entries;
      assert GetPath(config, path) == GetPath(api, [service, "api_key"]);
      if service in api && api[service].Dict? {
        assert GetPath(api, [service, "api_key"]) == GetPath(api[service].entries, ["api_key"]);
      }
    }
  }

  /** After a loop that ran to the end, a service whose variable was set has
      that value as its key. */
  lemma LoadedKeyIsFound(c: map<string, Value>, env: map<string, string>, j: nat)
    requires j < |Mappings| && IsSet(env, Mappings[j].variable)
    requires LoadApiKeys(c, env).error.None?
    ensures GetApiKey(LoadApiKeys(c, env).config, Mappings[j].path[1]) == Str(env[Mappings[j].variable])
  {
    AppliedKeyStays(c, env, Mappings, j);
    GetApiKeyIsPathLookup(LoadApiKeys(c, env).config, Mappings[j].path[1]);
    assert Mappings[j].path == ["api", Mappings[j].path[1], "api_key"];
  }

  /** A stored key survives the later steps, which write other services. */
  lemma {:induction false} AppliedKeyStays(c: map<string, Value>, env: map<string, string>, ms: seq<KeyMapping>, j: nat)
    requires ms <= Mappings && j < |ms| && IsSet(env, ms[j].variable)
    requires ApplyMappings(c, env, ms).error.None?
    ensures GetPath(ApplyMappings(c, env, ms).config, ms[j].path) == Some(Str(env[ms[j].variable]))
    decreases |ms|
  {
    var n := |ms| - 1;
    var before := ApplyMappings(c, env, ms[..n]);
    assert ms[..n] <= Mappings;
    if before.error.Some? {
    } else {
      var last := ms[n];
      if j == n {
        SetThenGet(before.config, last.path, Str(env[last.variable]));
      } else {
        AppliedKeyStays(c, env, ms[..n], j);
        assert ms[..n][j] == ms[j];
        if IsSet(env, last.variable) {
          assert ms[j].path[1] != last.path[1];
          SetKeepsOtherPaths(before.config, last.path, Str(env[last.variable]), ms[j].path, 1);
        }
      }
    }
  }

  // ------------------------------------------------------------- loading

  datatype LoadError =
    | FileNotFound(path: string)
    | MissingKey(missing: AttributeError)
    | AssignmentFailed(failure: TypeError)

  /** The three strict lookups `load_config` makes before creating the
      directories, in order. */
  function RequiredDirs(c: map<string, Value>): (r: Result<seq<Value>, AttributeError>)
    ensures r.Success? <==>
      Lookup(c, "output", "audio_directory").Success? && Lookup(c, "output", "transcript_directory").Success?
      && Lookup(c, "system", "temp_directory").Success?
  {
    match Lookup(c, "output", "audio_directory")
    case Failure(e) => Failure(e)
    case Success(audio) =>
      match Lookup(c, "output", "transcript_directory")
      case Failure(e) => Failure(e)
      case Success(transcripts) =>
        match Lookup(c, "system", "temp_directory")
        case Failure(e) => Failure(e)
        case Success(temp) => Success([audio, transcripts, temp])
  }

  class Config {
    var config: map<string, Value>

    /** `__init__` starts from an empty configuration and then loads. */
    constructor()
      ensures config == map[]
    {
      config := map[];
    }

    /** `_load_api_keys_from_env`, with its loop over `env_mapping`. */
    method LoadApiKeysFromEnv(env: map<string, string>) returns (error: Option<TypeError>)
      modifies this`config
      ensures Applied(config, error) == LoadApiKeys(old(config), env)
    {
      MappingsWriteApi();
      var i := 0;
      error := None;
      while i < |Mappings|
        invariant 0 <= i <= |Mappings|
        invariant ApplyMappings(old(config), env, Mappings[..i]) == Applied(config, None)
      {
        assert Mappings[..i + 1][..i] == Mappings[..i];
        var km := Mappings[i];
        if IsSet(env, km.variable) {
          var r := SetPath(config, km.path, Str(env[km.variable]));
          if r.Failure? {
            error := Some(r.error);
            StopsAtFailure(old(config), env, i + 1);
            return;
          }
          config := r.value;
        }
        i := i + 1;
      }
      assert Mappings[..i] == Mappings;
    }

    /** `load_config`: a missing file raises; otherwise its mapping becomes
      the configuration, the three directory lookups may raise, and then the
      API keys are loaded. */
    method LoadConfig(path: string, file: Option<map<string, Value>>, env: map<string, string>)
      returns (error: Option<LoadError>)
      modifies this`config
      ensures file.None? ==> error == Some(FileNotFound(path)) && config == old(config)
      ensures file.Some? && RequiredDirs(file.value).Failure? ==>
        error == Some(MissingKey(RequiredDirs(file.value).error)) && config == file.value
      ensures file.Some? && RequiredDirs(file.value).Success? ==>
        var r := LoadApiKeys(file.value, env);
        config == r.config
        && (error.None? <==> r.error.None?)
        && (r.error.Some? ==> error == Some(AssignmentFailed(r.error.value)))
    {
      if file.None? {
        return Some(FileNotFound(path));
      }
      config := file.value;
      var dirs := RequiredDirs(config);
      if dirs.Failure? {
        return Some(MissingKey(dirs.error));
      }
      var e := LoadApiKeysFromEnv(env);
      if e.Some? {
        return Some(AssignmentFailed(e.value));
      }
      return None;
    }
  }

  /** Once a step fails, the later ones are skipped. */
  lemma {:induction false} StopsAtFailure(c: map<string, Value>, env: map<string, string>, k: nat)
    requires k <= |Mappings| && ApplyMappings(c, env, Mappings[..k]).error.Some?
    ensures LoadApiKeys(c, env) == ApplyMappings(c, env, Mappings[..k])
    decreases |Mappings| - k
  {
    if k == |Mappings| {
      assert Mappings[..k] == Mappings;
    } else {
      assert Mappings[..k + 1][..k] == Mappings[..k];
      StopsAtFailure(c, env, k + 1);
    }
  }
}
