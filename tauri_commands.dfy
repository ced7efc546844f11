/**
 * The desktop shell's Ollama commands. The process runs and HTTP requests
 * they make are inputs (`ProcessRun`, `HttpOutcome`), and the parsed JSON
 * body is a `Json` value; what is modelled is how each command turns those
 * outcomes into its `Result`.
 */
module TauriCommands {
  import opened Common

  /** A parsed JSON document. */
  datatype Json =
    | JNull
    | JBool(b: bool)
    | JNumber(n: int)
    | JString(s: string)
    | JArray(items: seq<Json>)
    | JObject(fields: seq<(string, Json)>)

  /** `value[key]`: the member's value on an object, `Null` when the key is
      absent or the value is not an object. */
  function Index(v: Json, key: string): (r: Json)
    ensures !v.JObject? ==> r == JNull
  {
    if v.JObject? then Lookup(v.fields, key) else JNull
  }

  /** Field `k` is the last one named `key`. */
  predicate LastWithKey(fields: seq<(string, Json)>, key: string, k: int)
  {
    0 <= k < |fields| && fields[k].0 == key && forall j :: k < j < |fields| ==> fields[j].0 != key
  }

  /** The value of a member: the last field with that key, or `Null`. */
  function Lookup(fields: seq<(string, Json)>, key: string): Json
  {
    if |fields| == 0 then JNull
    else if fields[|fields| - 1].0 == key then fields[|fields| - 1].1
    else Lookup(fields[..|fields| - 1], key)
  }

  /** `serde_json` keeps the last of duplicate keys: a present key reads as
      the value of its last field. */
  lemma {:induction false} LookupLast(fields: seq<(string, Json)>, key: string, k: int)
    requires LastWithKey(fields, key, k)
    ensures Lookup(fields, key) == fields[k].1
  {
    var n := |fields| - 1;
    if k < n {
      assert fields[..n][k] == fields[k];
      assert LastWithKey(fields[..n], key, k);
      LookupLast(fields[..n], key, k);
    }
  }

  /** An absent key reads as `Null`. */
  lemma {:induction false} LookupAbsent(fields: seq<(string, Json)>, key: string)
    requires forall k :: 0 <= k < |fields| ==> fields[k].0 != key
    ensures Lookup(fields, key) == JNull
  {
    if |fields| > 0 {
      var n := |fields| - 1;
      assert forall k :: 0 <= k < n ==> fields[..n][k] == fields[k];
      LookupAbsent(fields[..n], key);
    }
  }

  /** `as_str()`. */
  function AsStr(v: Json): Option<string>
  {
    if v.JString? then Some(v.s) else None
  }

  /** The name of one entry of the `models` array, when it is a string. */
  function EntryName(m: Json): Option<string>
  {
    AsStr(Index(m, "name"))
  }

  /** `filter_map(|m| m["name"].as_str())`: the string names, in order. */
  function ModelNames(entries: seq<Json>): (names: seq<string>)
    ensures |names| <= |entries|
  {
    if |entries| == 0 then []
    else
      var rest := ModelNames(entries[1..]);
      if EntryName(entries[0]).Some? then [EntryName(entries[0]).value] + rest else rest
  }

  /** Names are collected in entry order: the names of a concatenation are
      the concatenation of the names. */
  lemma {:induction false} ModelNamesAppend(a: seq<Json>, b: seq<Json>)
    ensures ModelNames(a + b) == ModelNames(a) + ModelNames(b)
  {
    if |a| == 0 {
      assert a + b == b;
    } else {
      assert (a + b)[1..] == a[1..] + b;
      ModelNamesAppend(a[1..], b);
    }
  }

  /** An entry without a string `name` is skipped and nothing else changes. */
  lemma ModelNamesSkip(a: seq<Json>, m: Json, b: seq<Json>)
    requires EntryName(m).None?
    ensures ModelNames(a + [m] + b) == ModelNames(a + b)
  {
    ModelNamesAppend(a + [m], b);
    ModelNamesAppend(a, [m]);
    ModelNamesAppend(a, b);
  }

  /** When every entry has a string name, the result is exactly those names. */
  lemma {:induction false} ModelNamesAllNamed(entries: seq<Json>)
    requires forall j :: 0 <= j < |entries| ==> EntryName(entries[j]).Some?
    ensures |ModelNames(entries)| == |entries|
    ensures forall j :: 0 <= j < |entries| ==> ModelNames(entries)[j] == EntryName(entries[j]).value
  {
    if |entries| > 0 {
      ModelNamesAllNamed(entries[1..]);
    }
  }

  /** `body["models"].as_array().map(...).unwrap_or_default()`. */
  function ListedNames(body: Json): (names: seq<string>)
    ensures !Index(body, "models").JArray? ==> names == []
  {
    var models := Index(body, "models");
    if models.JArray? then ModelNames(models.items) else []
  }

  /** How a spawned `ollama` process ended: it could not be started, or it
      exited with a success flag and its standard error. */
  datatype ProcessRun = SpawnFails(message: string) | Exited(success: bool, stderr: string)

  /** How a request to `/api/tags` ended: the send failed, or a response came
      with a success status flag and a body that parsed as JSON or not. */
  datatype HttpOutcome =
    | SendFails(message: string)
    | Responded(success: bool, body: Result<Json, string>)

  /** `check_ollama_installed`: never an error; true exactly when
      `ollama --version` ran and exited successfully. */
  function CheckInstalled(run: ProcessRun): (r: Result<bool, string>)
    ensures r.Ok?
    ensures r.value <==> run.Exited? && run.success
  {
    match run
    case SpawnFails(_) => Ok(false)
    case Exited(success, _) => Ok(success)
  }

  /** `check_ollama_running`: never an error; true exactly when the probe got
      a success status. */
  function CheckRunning(h: HttpOutcome): (r: Result<bool, string>)
    ensures r.Ok?
    ensures r.value <==> h.Responded? && h.success
  {
    match h
    case SendFails(_) => Ok(false)
    case Responded(success, _) => Ok(success)
  }

  const ConnectFailedPrefix: string := "Failed to connect to Ollama: "
  const ParseFailedPrefix: string := "Failed to parse response: "
  const PullFailedPrefix: string := "Failed to pull model: "
  const StartFailedPrefix: string := "Failed to start Ollama: "

  /** `list_models`: an error when the request fails or the body is not
      JSON (whatever the status), else the listed names. */
  function ListModels(h: HttpOutcome): (r: Result<seq<string>, string>)
    ensures h.SendFails? ==> r == Err(ConnectFailedPrefix + h.message)
    ensures h.Responded? && h.body.Err? ==> r == Err(ParseFailedPrefix + h.body.error)
    ensures h.Responded? && h.body.Ok? ==> r == Ok(ListedNames(h.body.value))
  {
    match h
    case SendFails(message) => Err(ConnectFailedPrefix + message)
    case Responded(_, body) =>
      match body
      case Err(e) => Err(ParseFailedPrefix + e)
      case Ok(json) => Ok(ListedNames(json))
  }

  /** `models.iter().any(|m| m.starts_with(&model))`. */
  function AnyStartsWith(models: seq<string>, model: string): (b: bool)
    ensures b <==> exists k :: 0 <= k < |models| && model <= models[k]
  {
    if |models| == 0 then false
    else model <= models[0] || AnyStartsWith(models[1..], model)
  }

  /** `has_model`: the listing error propagates; otherwise true exactly when
      some listed name starts with the argument (a prefix, not equality). */
  function HasModel(model: string, h: HttpOutcome): (r: Result<bool, string>)
    ensures ListModels(h).Err? ==> r == Err(ListModels(h).error)
    ensures ListModels(h).Ok? ==>
      r.Ok? && (r.value <==> exists k :: 0 <= k < |ListModels(h).value| && model <= ListModels(h).value[k])
  {
    match ListModels(h)
    case Err(e) => Err(e)
    case Ok(models) => Ok(AnyStartsWith(models, model))
  }

  /** `pull_model`: success exactly when `ollama pull` ran and exited
      successfully; otherwise the spawn error or the process's stderr. */
  function PullModel(run: ProcessRun): (r: Result<(), string>)
    ensures r.Ok? <==> run.Exited? && run.success
    ensures run.SpawnFails? ==> r == Err(PullFailedPrefix + run.message)
    ensures run.Exited? && !run.success ==> r == Err(PullFailedPrefix + run.stderr)
  {
    match run
    case SpawnFails(message) => Err(PullFailedPrefix + message)
    case Exited(success, stderr) => if success then Ok(()) else Err(PullFailedPrefix + stderr)
  }

  /** `start_ollama`: the spawn of `ollama serve` either failed with a
      message or the server was started. */
  function StartOllama(spawn: Option<string>): (r: Result<(), string>)
    ensures r.Ok? <==> spawn.None?
    ensures spawn.Some? ==> r == Err(StartFailedPrefix + spawn.value)
  {
    if spawn.Some? then Err(StartFailedPrefix + spawn.value) else Ok(())
  }

  datatype OllamaStatus = OllamaStatus(installed: bool, running: bool, models: seq<string>)

  /** `get_ollama_status`, given the outcomes of the version check, the
      running probe and the model listing (made only when running). */
  function GetOllamaStatus(version: ProcessRun, probe: HttpOutcome, listing: HttpOutcome): (r: Result<OllamaStatus, string>)
    ensures r.Ok?
    ensures r.value.installed <==> version.Exited? && version.success
    ensures r.value.running <==> probe.Responded? && probe.success
    ensures !r.value.running ==> r.value.models == []
    ensures r.value.running && ListModels(listing).Ok? ==> r.value.models == ListModels(listing).value
    ensures ListModels(listing).Err? ==> r.value.models == []
  {
    var installed := CheckInstalled(version).value;
    var running := CheckRunning(probe).value;
    var listed := ListModels(listing);
    var models := if running then (if listed.Ok? then listed.value else []) else [];
    Ok(OllamaStatus(installed, running, models))
  }
}
