/** `load_profile_yaml` of src/utils/profile_parser.py once the YAML has been
    read: the structural checks on the profile and the defaults it fills in.
    Whether the file exists and what `yaml.safe_load` returns for it are
    the `file` parameter (`None` when there is no such file). */
module ProfileParser {
  import opened Wrappers
  import opened Values
  import Paths

  datatype ProfileError =
    | FileNotFound(path: string)
    | NotADict
    | MissingField(field: string)
    | ActionsNotList
    | ActionNotDict
    | ActionMissingScript

  /** `os.path.join("profiles", f"{name}.yaml")`: an absolute name escapes
      the profiles directory. */
  function ProfilePath(name: string): (p: string)
    ensures (name == [] || name[0] != '/') ==> p == "profiles/" + name + ".yaml"
    ensures name != [] && name[0] == '/' ==> p == name + ".yaml"
  {
    Paths.Join("profiles", name + ".yaml")
  }

  /** One action: a dictionary with a `script`, given an empty `config` when
      it has none. */
  function CheckAction(action: Value): (r: Result<Value, ProfileError>)
    ensures r.Failure? <==> !action.Dict? || "script" !in action.entries
    ensures r.Failure? ==> r.error == (if action.Dict? then ActionMissingScript else ActionNotDict)
    ensures r.Success? ==> r.value.Dict? && r.value.entries.Keys == action.entries.Keys + {"config"}
    ensures r.Success? ==> forall k :: k in action.entries ==> r.value.entries[k] == action.entries[k]
    ensures r.Success? && "config" !in action.entries ==> r.value.entries["config"] == Dict(map[])
  {
    if !action.Dict? then Failure(ActionNotDict)
    else if "script" !in action.entries then Failure(ActionMissingScript)
    else if "config" in action.entries then Success(action)
    else Success(Dict(action.entries["config" := Dict(map[])]))
  }

  /** The actions checked in order: the first bad one decides the error. */
  function CheckActions(actions: seq<Value>): (r: Result<seq<Value>, ProfileError>)
    ensures r.Success? ==> |r.value| == |actions|
    ensures r.Success? ==> forall i :: 0 <= i < |r.value| ==> r.value[i].Dict?
    decreases |actions|
  {
    if actions == [] then Success([])
    else
      var n := |actions| - 1;
      match CheckActions(actions[..n])
      case Failure(e) => Failure(e)
      case Success(done) =>
        match CheckAction(actions[n])
        case Failure(e) => Failure(e)
        case Success(a) => Success(done + [a])
  }

  /** The actions pass exactly when each one passes on its own, and each
      checked action is the check of the original. */
  lemma {:induction false} CheckActionsEach(actions: seq<Value>)
    ensures CheckActions(actions).Success? <==> forall i :: 0 <= i < |actions| ==> CheckAction(actions[i]).Success?
    ensures CheckActions(actions).Success? ==>
      forall i :: 0 <= i < |actions| ==> CheckActions(actions).value[i] == CheckAction(actions[i]).value
    decreases |actions|
  {
    if actions != [] {
      var n := |actions| - 1;
      CheckActionsEach(actions[..n]);
      assert forall i :: 0 <= i < n ==> actions[..n][i] == actions[i];
    }
  }

  /** The profile dictionary with `name` and `actions` defaulted. */
  function WithDefaults(profileName: string, d: map<string, Value>): (r: map<string, Value>)
    ensures r.Keys == d.Keys + {"name", "actions"}
    ensures "name" in d ==> r["name"] == d["name"]
    ensures "name" !in d ==> r["name"] == Str(profileName)
    ensures "actions" in d ==> r["actions"] == d["actions"]
    ensures "actions" !in d ==> r["actions"] == List([])
    ensures forall k :: k in d ==> r[k] == d[k]
  {
    var named := if "name" in d then d else d["name" := Str(profileName)];
    if "actions" in named then named else named["actions" := List([])]
  }

  /** What `load_profile_yaml(profileName)` returns or raises. */
  function LoadSpec(profileName: string, file: Option<Value>): (r: Result<map<string, Value>, ProfileError>)
    ensures file.None? ==> r == Failure(FileNotFound(ProfilePath(profileName)))
    ensures file.Some? && !file.value.Dict? ==> r == Failure(NotADict)
    ensures r.Success? ==> file.Some? && file.value.Dict? && "prompt" in file.value.entries
    ensures r.Success? ==> r.value.Keys == file.value.entries.Keys + {"name", "actions"}
    ensures r.Success? ==> forall k :: k in file.value.entries && k != "actions" ==> r.value[k] == file.value.entries[k]
    ensures r.Success? ==>
      (r.value["actions"].List? && forall i :: 0 <= i < |r.value["actions"].items| ==> r.value["actions"].items[i].Dict?)
  {
    if file.None? then Failure(FileNotFound(ProfilePath(profileName)))
    else if !file.value.Dict? then Failure(NotADict)
    else if "prompt" !in file.value.entries then Failure(MissingField("prompt"))
    else
      var d := WithDefaults(profileName, file.value.entries);
      if !d["actions"].List? then Failure(ActionsNotList)
      else
        match CheckActions(d["actions"].items)
        case Failure(e) => Failure(e)
        case Success(actions) => Success(d["actions" := List(actions)])
  }

  /** `load_profile_yaml`, with its loop over the actions. */
  method LoadProfileYaml(profileName: string, file: Option<Value>) returns (r: Result<map<string, Value>, ProfileError>)
    ensures r == LoadSpec(profileName, file)
  {
    if file.None? {
      return Failure(FileNotFound(ProfilePath(profileName)));
    }
    if !file.value.Dict? {
      return Failure(NotADict);
    }
    var data := file.value.entries;
    if "prompt" !in data {
      return Failure(MissingField("prompt"));
    }
    if "name" !in data {
      data := data["name" := Str(profileName)];
    }
    if "actions" !in data {
      data := data["actions" := List([])];
    }
    assert data == WithDefaults(profileName, file.value.entries);
    if !data["actions"].List? {
      return Failure(ActionsNotList);
    }
    var items := data["actions"].items;
    var checked: seq<Value> := [];
    var i := 0;
    while i < |items|
      invariant 0 <= i <= |items|
      invariant CheckActions(items[..i]) == Success(checked)
    {
      assert items[..i + 1][..i] == items[..i];
      var a := CheckAction(items[i]);
      if a.Failure? {
        assert CheckActions(items[..i + 1]) == Failure(a.error);
        CheckActionsFailureSticks(items, i + 1);
        return Failure(a.error);
      }
      checked := checked + [a.value];
      i := i + 1;
    }
    assert items[..i] == items;
    return Success(data["actions" := List(checked)]);
  }

  /** Once a prefix of the actions fails, the whole list fails the same way. */
  lemma {:induction false} CheckActionsFailureSticks(actions: seq<Value>, k: nat)
    requires k <= |actions| && CheckActions(actions[..k]).Failure?
    ensures CheckActions(actions) == CheckActions(actions[..k])
    decreases |actions| - k
  {
    if k == |actions| {
      assert actions[..k] == actions;
    } else {
      assert actions[..k + 1][..k] == actions[..k];
      CheckActionsFailureSticks(actions, k + 1);
    }
  }

  /** When the profile loads, every action has a `script` and a `config`. */
  lemma LoadedActionsComplete(profileName: string, file: Option<Value>)
    requires LoadSpec(profileName, file).Success?
    ensures var d := LoadSpec(profileName, file).value;
      "actions" in d && d["actions"].List?
      && forall i :: 0 <= i < |d["actions"].items| ==>
           d["actions"].items[i].Dict? && "script" in d["actions"].items[i].entries
           && "config" in d["actions"].items[i].entries
  {
    var d0 := WithDefaults(profileName, file.value.entries);
    CheckActionsEach(d0["actions"].items);
  }

  /** A loaded profile keeps every key of the file and its value, except
      that `actions` is replaced by the checked actions, and an existing
      `name` is kept. */
  lemma LoadKeepsFields(profileName: string, file: Option<Value>)
    requires LoadSpec(profileName, file).Success?
    ensures var d := LoadSpec(profileName, file).value; var f := file.value.entries;
      f.Keys <= d.Keys && d.Keys == f.Keys + {"name", "actions"}
      && (forall k :: k in f && k != "actions" ==> d[k] == f[k])
      && d["name"] == (if "name" in f then f["name"] else Str(profileName))
  {
  }

  /** Each loaded action keeps every key and value it had, including an
      existing `config`; only a missing `config` is added, as `{}`. */
  lemma LoadKeepsActionFields(profileName: string, file: Option<Value>, i: nat)
    requires LoadSpec(profileName, file).Success?
    requires "actions" in file.value.entries && file.value.entries["actions"].List?
    requires i < |file.value.entries["actions"].items|
    ensures var before := file.value.entries["actions"].items[i];
      var after := LoadSpec(profileName, file).value["actions"].items[i];
      before.Dict? && after.Dict?
      && after.entries.Keys == before.entries.Keys + {"config"}
      && (forall k :: k in before.entries ==> after.entries[k] == before.entries[k])
      && ("config" !in before.entries ==> after.entries["config"] == Dict(map[]))
  {
    var items := file.value.entries["actions"].items;
    CheckActionsEach(items);
  }

  /** The profile loads exactly when the file exists, is a dictionary with a
      `prompt`, its `actions` (when present) is a list, and every action is
      a dictionary with a `script`. */
  lemma LoadSucceedsIff(profileName: string, file: Option<Value>)
    ensures LoadSpec(profileName, file).Success? <==>
      file.Some? && file.value.Dict? && "prompt" in file.value.entries
      && ("actions" in file.value.entries ==> file.value.entries["actions"].List?)
      && (var actions := if "actions" in file.value.entries then file.value.entries["actions"].items else [];
          forall i :: 0 <= i < |actions| ==> actions[i].Dict? && "script" in actions[i].entries)
  {
    if file.Some? && file.value.Dict? && "prompt" in file.value.entries {
      var d := WithDefaults(profileName, file.value.entries);
      if d["actions"].List? {
        CheckActionsEach(d["actions"].items);
      }
    }
  }
}
