/** The configuration of src/core/config.py: the built-in defaults, the
    top-level merge of the configuration file over them, `save` without the
    API section, the environment lookup of API keys, and the lenient
    `ConfigSection` accessors, and the arguments `load_config` hands to
    `os.makedirs`. Reading and writing the YAML file and the file system
    itself are outside the model: the file's contents are a parameter,
    `save` returns what it would write, and only the exceptions that the
    arguments alone decide are modelled. */
module CoreConfig {
  import opened Wrappers
  import opened Values

  /** What `section.<key>` gives: a nested section for a dictionary, the
      value itself otherwise. */
  datatype Attr = Plain(value: Value) | Nested(section: ConfigSection)

  /** The value behind an attribute, with a nested section as its
      dictionary. */
  function AttrValue(a: Attr): Value {
    match a
    case Plain(v) => v
    case Nested(s) => Dict(s.section)
  }

  datatype KeyError = KeyError(key: string)

  /** `ConfigSection`: dotted access over one dictionary. */
  datatype ConfigSection = ConfigSection(section: map<string, Value>) {
    /** `__getattr__`: a missing key is `None`, never an error; a
        dictionary comes back as a section. */
    function GetAttr(key: string): (r: Attr)
      ensures key !in section ==> r == Plain(Null)
      ensures key in section && section[key].Dict? ==> r == Nested(ConfigSection(section[key].entries))
      ensures key in section && !section[key].Dict? ==> r == Plain(section[key])
    {
      if key !in section then Plain(Null)
      else if section[key].Dict? then Nested(ConfigSection(section[key].entries))
      else Plain(section[key])
    }

    /** `__getitem__`: a strict lookup. */
    function GetItem(key: string): (r: Result<Value, KeyError>)
      ensures r.Success? <==> key in section
      ensures r.Success? ==> r.value == section[key]
      ensures r.Failure? ==> r.error == KeyError(key)
    {
      if key in section then Success(section[key]) else Failure(KeyError(key))
    }

    /** `__contains__`. */
    predicate Contains(key: string) {
      key in section
    }

    /** `get`: the value, or the default for a missing key. */
    function Get(key: string, default: Value): (r: Value)
      ensures key in section ==> r == section[key]
      ensures key !in section ==> r == default
    {
      if key in section then section[key] else default
    }
  }

  /** The accessors agree: `in` decides whether `[]` succeeds, `get` is `[]`
      with a fallback, and attribute access is `get(key, None)` with
      dictionaries wrapped. */
  lemma AccessorsAgree(s: ConfigSection, key: string, default: Value)
    ensures s.Contains(key) <==> s.GetItem(key).Success?
    ensures s.Contains(key) ==> s.Get(key, default) == s.GetItem(key).value
    ensures !s.Contains(key) ==> s.Get(key, default) == default
    ensures AttrValue(s.GetAttr(key)) == s.Get(key, Null)
  {
  }

  /** The directories the defaults name, which come from the application's
      own directory layout. */
  datatype Dirs = Dirs(meetings: string, monologues: string, profiles: string, models: string)

  function Commands(): map<string, Value> {
    map["help" := Dict(map["description" := Str("Show help menu"), "action" := Str("help")]),
        "config" := Dict(map["description" := Str("Configure application settings"), "action" := Str("config")]),
        "devices" := Dict(map["description" := Str("List available audio devices"), "action" := Str("devices")])]
  }

  function Microphone(): map<string, Value> {
    map["name" := Null, "index" := Null, "channels" := Null, "sample_rate" := Null,
        "input_latency" := Null, "is_default" := Null]
  }

  function AudioDefaults(): map<string, Value> {
    map["format" := Str("wav"), "channels" := Int(2), "sample_rate" := Int(48000),
        "chunk_size" := Int(1024), "capture_system_audio" := Bool(true),
        "devices" := Dict(map["microphone" := Dict(Microphone())])]
  }

  function OutputDefaults(dirs: Dirs): map<string, Value> {
    map["session_type" := Str("meeting"), "meetings_directory" := Str(dirs.meetings),
        "monologues_directory" := Str(dirs.monologues), "profiles_directory" := Str(dirs.profiles),
        "timestamp_format" := Str("%Y-%m-%d_%H-%M-%S"), "save_audio" := Bool(true),
        "file_format" := Str("md")]
  }

  function TranscriptionDefaults(dirs: Dirs): map<string, Value> {
    map["whisper" := Dict(map["models_path" := Str(dirs.models),
                              "base_url" := Str("https://huggingface.co/Mozilla/whisperfile/resolve/main/"),
                              "gpu_enabled" := Bool(true)])]
  }

  const SectionNames: set<string> :=
    {"commands", "ai", "hotkeys", "audio", "output", "transcription", "system"}

  /** `DEFAULT_CONFIG`: seven sections, none of them `api` or `display`. */
  function DefaultConfig(dirs: Dirs): (r: map<string, Value>)
    ensures r.Keys == SectionNames
    ensures forall k :: k in r ==> r[k].Dict?
    ensures r["audio"] == Dict(AudioDefaults())
    ensures r["output"] == Dict(OutputDefaults(dirs))
  {
    map["commands" := Dict(Commands()),
        "ai" := Dict(map["default_provider" := Str("ollama"), "default_model" := Str("llama3.2")]),
        "hotkeys" := Dict(map["start_recording" := Str("ctrl+r"), "stop_recording" := Str("ctrl+s"),
                              "pause_recording" := Str("ctrl+shift+p")]),
        "audio" := Dict(AudioDefaults()),
        "output" := Dict(OutputDefaults(dirs)),
        "transcription" := Dict(TranscriptionDefaults(dirs)),
        "system" := Dict(map["temp_directory" := Str("/tmp/whisperbox"), "debug_mode" := Bool(false)])]
  }

  /** `ConfigSection(self._config.get(name, {}))`. A present key whose
      value is not a dictionary gives `None`: such a section is outside the
      model. */
  function SectionOf(config: map<string, Value>, name: string): (r: Option<ConfigSection>)
    ensures name !in config ==> r == Some(ConfigSection(map[]))
    ensures name in config && config[name].Dict? ==> r == Some(ConfigSection(config[name].entries))
    ensures name in config && !config[name].Dict? ==> r.None?
  {
    if name !in config then Some(ConfigSection(map[]))
    else if config[name].Dict? then Some(ConfigSection(config[name].entries))
    else None
  }

  /** The default audio section records two channels. */
  lemma DefaultChannels(dirs: Dirs)
    ensures SectionOf(DefaultConfig(dirs), "audio").value.GetAttr("channels") == Plain(Int(2))
  {
    assert "channels" in AudioDefaults();
  }

  /** The merge is shallow: a file section replaces the default section
      whole, so a file whose audio section sets only some keys loses the
      default channel count, while a section the file leaves out keeps its
      defaults. */
  lemma MergeIsShallow(dirs: Dirs, file: map<string, Value>, audio: map<string, Value>)
    requires "audio" in file && file["audio"] == Dict(audio) && "channels" !in audio
    requires "output" !in file
    ensures SectionOf(DefaultConfig(dirs) + file, "audio") == Some(ConfigSection(audio))
    ensures SectionOf(DefaultConfig(dirs) + file, "audio").value.GetAttr("channels") == Plain(Null)
    ensures SectionOf(DefaultConfig(dirs) + file, "output") == SectionOf(DefaultConfig(dirs), "output")
  {
    var merged := DefaultConfig(dirs) + file;
    assert merged["audio"] == Dict(audio);
    assert "output" in DefaultConfig(dirs);
    assert merged["output"] == DefaultConfig(dirs)["output"];
  }

  /** Without a file section, `display` is an empty section: every one of
      its attributes is `None`. */
  lemma DisplayDefaultsEmpty(dirs: Dirs, file: map<string, Value>, key: string)
    requires "display" !in file
    ensures SectionOf(DefaultConfig(dirs) + file, "display") == Some(ConfigSection(map[]))
    ensures SectionOf(DefaultConfig(dirs) + file, "display").value.GetAttr(key) == Plain(Null)
  {
  }

  /** `save`'s copy: everything except `api`. */
  function SafeCopy(config: map<string, Value>): (r: map<string, Value>)
    ensures "api" !in r
    ensures r.Keys == config.Keys - {"api"}
    ensures forall k :: k in r ==> r[k] == config[k]
  {
    config - {"api"}
  }

  /** Why `os.makedirs(self.<section>.<key>, exist_ok=True)` raises before
      touching the file system. The section is not a dictionary: a `TypeError`,
      from the `key not in` test of `ConfigSection.__getattr__` on `None`, a
      number or a boolean, from indexing a string or a list, or from
      `os.makedirs(None)` when the key is not found in one. The value is
      not a string (`None` for a missing key, a number, a nested section):
      a `TypeError`. The path is empty: a `FileNotFoundError`. */
  datatype DirError =
    | NotASection(section: string)
    | NotAPath(section: string, key: string)
    | EmptyPath(section: string, key: string)

  /** The raw condition for `os.makedirs` to accept the argument: the
      section is a dictionary holding a non-empty string at `key`. */
  predicate UsablePath(config: map<string, Value>, section: string, key: string) {
    section in config && config[section].Dict? && key in config[section].entries
    && config[section].entries[key].Str? && config[section].entries[key].s != []
  }

  /** The argument check of one `os.makedirs` call, read through the
      lenient section accessors. */
  function MakedirsArgument(config: map<string, Value>, section: string, key: string): (r: Option<DirError>)
    ensures r.None? <==> UsablePath(config, section, key)
    ensures section in config && !config[section].Dict? ==> r == Some(NotASection(section))
    ensures r == Some(NotAPath(section, key)) <==>
      section !in config
      || (config[section].Dict? && (key !in config[section].entries || !config[section].entries[key].Str?))
    ensures r == Some(EmptyPath(section, key)) <==>
      section in config && config[section].Dict? && key in config[section].entries
      && config[section].entries[key] == Str([])
  {
    match SectionOf(config, section)
    case None => Some(NotASection(section))
    case Some(s) =>
      match AttrValue(s.GetAttr(key))
      case Str(p) => if p == [] then Some(EmptyPath(section, key)) else None
      case _ => Some(NotAPath(section, key))
  }

  /** The three `os.makedirs` calls of `load_config`, in order: the first
      argument that cannot be a path raises, and the rest are not reached. */
  function CreateDirectories(config: map<string, Value>): (r: Option<DirError>)
    ensures r.None? <==>
      UsablePath(config, "output", "meetings_directory")
      && UsablePath(config, "output", "monologues_directory")
      && UsablePath(config, "system", "temp_directory")
    ensures !UsablePath(config, "output", "meetings_directory") ==>
      r == MakedirsArgument(config, "output", "meetings_directory")
    ensures UsablePath(config, "output", "meetings_directory") && !UsablePath(config, "output", "monologues_directory") ==>
      r == MakedirsArgument(config, "output", "monologues_directory")
    ensures UsablePath(config, "output", "meetings_directory") && UsablePath(config, "output", "monologues_directory") ==>
      r == MakedirsArgument(config, "system", "temp_directory")
  {
    var first := MakedirsArgument(config, "output", "meetings_directory");
    var second := MakedirsArgument(config, "output", "monologues_directory");
    if first.Some? then first
    else if second.Some? then second
    else MakedirsArgument(config, "system", "temp_directory")
  }

  /** With the built-in defaults, every directory argument is a path when
      the application's directories have non-empty names. */
  lemma DefaultsCreateDirectories(dirs: Dirs, file: map<string, Value>)
    requires dirs.meetings != [] && dirs.monologues != []
    requires "output" !in file && "system" !in file
    ensures CreateDirectories(DefaultConfig(dirs) + file) == None
  {
    var merged := DefaultConfig(dirs) + file;
    var output := OutputDefaults(dirs);
    assert output["meetings_directory"] == Str(dirs.meetings);
    assert output["monologues_directory"] == Str(dirs.monologues);
    assert merged["output"] == Dict(output);
    assert merged["system"] == DefaultConfig(dirs)["system"];
    assert UsablePath(merged, "output", "meetings_directory");
    assert UsablePath(merged, "output", "monologues_directory");
  }

  /** The shallow merge again: a file `output` section without
      `meetings_directory` replaces the default one, so the first
      `os.makedirs` is given `None` and `load_config` raises `TypeError`. */
  lemma MissingDirectoryRaises(dirs: Dirs, file: map<string, Value>, output: map<string, Value>)
    requires "output" in file && file["output"] == Dict(output) && "meetings_directory" !in output
    ensures CreateDirectories(DefaultConfig(dirs) + file) == Some(NotAPath("output", "meetings_directory"))
  {
    var merged := DefaultConfig(dirs) + file;
    assert merged["output"] == Dict(output);
  }

  class Config {
    var config: map<string, Value>
    /** What the `load_config` call of `__init__` raised, if anything. When
        it is an error, Python never hands out the object (the module-level
        `config = Config()` fails); the fields are the state reached. */
    var initError: Option<DirError>

    /** `__init__`: the defaults, then the file over them, then the
      directories. */
    constructor(dirs: Dirs, file: map<string, Value>)
      ensures config == DefaultConfig(dirs) + file
      ensures initError == CreateDirectories(config)
    {
      config := DefaultConfig(dirs);
      initError := None;
      new;
      initError := LoadConfig(file);
    }

    /** `load_config`: each top-level key of the file replaces the current
      one and the rest stay; then the three directories are created, which
      raises when one of the arguments is not a path. The merge happens
      before the error. */
    method LoadConfig(file: map<string, Value>) returns (error: Option<DirError>)
      modifies this`config
      ensures config == old(config) + file
      ensures forall k :: k in config ==> config[k] == if k in file then file[k] else old(config)[k]
      ensures error == CreateDirectories(config)
    {
      config := config + file;
      error := CreateDirectories(config);
    }

    /** `save`: what is written is the configuration without `api`, and the
      configuration itself is left as it is. */
    method Save() returns (written: map<string, Value>)
      ensures written == SafeCopy(config)
    {
      written := config - {"api"};
    }

    /** A section property such as `output` or `hotkeys`. */
    function Section(name: string): (r: Option<ConfigSection>)
      reads this
      ensures r == SectionOf(config, name)
    {
      SectionOf(config, name)
    }
  }

  /** Saving after loading a file drops any API keys the file held, and
      writes every other section. */
  lemma SavedFileHasNoKeys(dirs: Dirs, file: map<string, Value>)
    ensures var saved := SafeCopy(DefaultConfig(dirs) + file);
      "api" !in saved && saved.Keys == SectionNames + file.Keys - {"api"}
  {
  }

  /** The variable `get_api_key` reads for a service. */
  function ApiKeyVariable(service: string): (r: Option<string>)
    ensures r.Some? <==> service in {"openai", "anthropic", "groq"}
  {
    if service == "openai" then Some("OPENAI_API_KEY")
    else if service == "anthropic" then Some("ANTHROPIC_API_KEY")
    else if service == "groq" then Some("GROQ_API_KEY")
    else None
  }

  /** `get_api_key`: the environment variable of one of the three services,
      when set (possibly empty); any other service has no key. */
  function GetApiKey(service: string, env: map<string, string>): (r: Option<string>)
    ensures ApiKeyVariable(service).None? ==> r.None?
    ensures ApiKeyVariable(service).Some? ==>
      (r.Some? <==> ApiKeyVariable(service).value in env)
      && (r.Some? ==> r.value == env[ApiKeyVariable(service).value])
  {
    var name := ApiKeyVariable(service);
    if name.Some? && name.value in env then Some(env[name.value]) else None
  }

  /** Different services read different variables, so one service's key
      never answers for another. */
  lemma ApiKeyVariablesDistinct(a: string, b: string)
    requires ApiKeyVariable(a).Some? && ApiKeyVariable(b).Some? && a != b
    ensures ApiKeyVariable(a) != ApiKeyVariable(b)
  {
  }
}
