/**
 * The configuration table: providers, MCP servers and roles, keyed by name,
 * plus the active role. Defaults are written only into empty maps, and a
 * load overlays the entries of an already-parsed document onto the maps,
 * stopping at the first entry that cannot be built.
 */
module Config {
  import opened Wrappers
  import opened Json
  import PyDict

  type Dict<V> = PyDict.Dict<string, V>

  datatype ProviderConfig = ProviderConfig(
    name: string,
    kind: string,
    baseUrl: Option<string>,
    apiKeyEnv: Option<string>,
    defaultModel: string,
    ollamaModelsPath: Option<string>,
    availableModels: seq<string>,
    toolMode: string)

  datatype McpServerConfig = McpServerConfig(
    name: string,
    command: string,
    args: seq<string>,
    env: Dict<string>,
    enabled: bool)

  datatype RoleConfig = RoleConfig(
    name: string,
    providerName: string,
    modelId: string,
    systemPrompt: string,
    temperature: real,
    activeMcpServers: seq<string>,
    allowedTools: seq<string>,
    autonomyLevel: string)

  datatype AppConfig = AppConfig(
    providers: Dict<ProviderConfig>,
    mcpServers: Dict<McpServerConfig>,
    roles: Dict<RoleConfig>,
    activeRole: Json)

  /** `AppConfig()` */
  const EmptyConfig := AppConfig([], [], [], JStr("architect"))

  /** A provider with the dataclass defaults for the fields not given. */
  function Provider(name: string, kind: string, baseUrl: Option<string>, apiKeyEnv: Option<string>, defaultModel: string): ProviderConfig {
    ProviderConfig(name, kind, baseUrl, apiKeyEnv, defaultModel, None, [], "auto")
  }

  const DefaultProviders: Dict<ProviderConfig> := [
    ("openai", Provider("openai", "openai", None, Some("OPENAI_API_KEY"), "gpt-4o")),
    ("anthropic", Provider("anthropic", "anthropic", None, Some("ANTHROPIC_API_KEY"), "claude-3-5-sonnet-20241022")),
    ("ollama_local", Provider("ollama_local", "ollama", Some("http://localhost:11434"), None, "qwen2.5-coder:latest"))]

  const DefaultMcpServers: Dict<McpServerConfig> := [
    ("internal_fs", McpServerConfig("internal_fs", "python", ["-m", "octopus.tools.internal_fs_server"], [], true))]

  const DefaultRoles: Dict<RoleConfig> := [
    ("architect", RoleConfig("architect", "anthropic", "claude-3-5-sonnet-20241022",
       "You are a System Architect. Design robust, scalable systems.", 0.7, ["internal_fs"], [], "balanced")),
    ("developer", RoleConfig("developer", "ollama_local", "qwen2.5-coder:latest",
       "You are an expert Developer. Write clean, working code.", 0.7, ["internal_fs"], [], "balanced"))]

  /** The configuration `_ensure_defaults` leaves behind. */
  function WithDefaults(c: AppConfig): (r: AppConfig)
    ensures r.providers != [] && r.mcpServers != [] && r.roles != []
    ensures c.providers != [] ==> r.providers == c.providers
    ensures c.mcpServers != [] ==> r.mcpServers == c.mcpServers
    ensures c.roles != [] ==> r.roles == c.roles
    ensures r.activeRole == c.activeRole
  {
    c.(providers := if c.providers == [] then DefaultProviders else c.providers,
       mcpServers := if c.mcpServers == [] then DefaultMcpServers else c.mcpServers,
       roles := if c.roles == [] then DefaultRoles else c.roles)
  }

  /** Defaults fill exactly the empty maps; a non-empty map is never touched, and applying defaults twice changes nothing more. */
  lemma {:induction false} DefaultsFillOnlyEmpty(c: AppConfig)
    ensures var d := WithDefaults(c);
      (c.providers != [] ==> d.providers == c.providers)
      && (c.mcpServers != [] ==> d.mcpServers == c.mcpServers)
      && (c.roles != [] ==> d.roles == c.roles)
      && PyDict.Keys(d.providers) == (if c.providers == [] then ["openai", "anthropic", "ollama_local"] else PyDict.Keys(c.providers))
      && PyDict.Keys(d.mcpServers) == (if c.mcpServers == [] then ["internal_fs"] else PyDict.Keys(c.mcpServers))
      && PyDict.Keys(d.roles) == (if c.roles == [] then ["architect", "developer"] else PyDict.Keys(c.roles))
      && d.activeRole == c.activeRole
      && WithDefaults(d) == d
  {
  }

  // ---- reading entries of a parsed document ----

  /** A required string argument. */
  function ReqStr(v: Json, key: string): Result<string> {
    match Member(v, key)
    case None => Err("TypeError: missing required argument: " + key)
    case Some(JStr(s)) => Ok(s)
    case Some(_) => Err("TypeError: " + key + " is not a string")
  }

  /** A string argument with a default. */
  function StrOr(v: Json, key: string, default: string): Result<string> {
    match Member(v, key)
    case None => Ok(default)
    case Some(JStr(s)) => Ok(s)
    case Some(_) => Err("TypeError: " + key + " is not a string")
  }

  /** An optional string argument (`None` when absent or null). */
  function OptStr(v: Json, key: string): Result<Option<string>> {
    match Member(v, key)
    case None => Ok(None)
    case Some(JNull) => Ok(None)
    case Some(JStr(s)) => Ok(Some(s))
    case Some(_) => Err("TypeError: " + key + " is not a string")
  }

  function Strings(items: seq<Json>): Result<seq<string>> {
    if items == [] then Ok([])
    else match (items[0], Strings(items[1..]))
      case (JStr(s), Ok(rest)) => Ok([s] + rest)
      case _ => Err("TypeError: expected a list of strings")
  }

  /** A list-of-strings argument, `[]` when absent. */
  function StrList(v: Json, key: string): Result<seq<string>> {
    match Member(v, key)
    case None => Ok([])
    case Some(JArr(items)) => Strings(items)
    case Some(_) => Err("TypeError: " + key + " is not a list")
  }

  function StringPairs(fields: seq<(string, Json)>): Result<Dict<string>> {
    if fields == [] then Ok([])
    else match (fields[0].1, StringPairs(fields[1..]))
      case (JStr(s), Ok(rest)) => Ok([(fields[0].0, s)] + rest)
      case _ => Err("TypeError: expected a mapping of strings")
  }

  /** A string-to-string mapping argument, `{}` when absent. */
  function StrMap(v: Json, key: string): Result<Dict<string>> {
    match Member(v, key)
    case None => Ok([])
    case Some(JObj(fields)) => StringPairs(fields)
    case Some(_) => Err("TypeError: " + key + " is not a mapping")
  }

  function BoolOr(v: Json, key: string, default: bool): Result<bool> {
    match Member(v, key)
    case None => Ok(default)
    case Some(JBool(b)) => Ok(b)
    case Some(_) => Err("TypeError: " + key + " is not a boolean")
  }

  function RealOr(v: Json, key: string, default: real): Result<real> {
    match Member(v, key)
    case None => Ok(default)
    case Some(JFloat(f)) => Ok(f)
    case Some(JInt(i)) => Ok(i as real)
    case Some(_) => Err("TypeError: " + key + " is not a number")
  }

  /** Keyword arguments the dataclass does not declare raise `TypeError`. */
  predicate OnlyKeys(v: Json, allowed: seq<string>)
    requires v.JObj?
  {
    forall i :: 0 <= i < |v.fields| ==> v.fields[i].0 in allowed
  }

  const ProviderKeys := ["name", "type", "base_url", "api_key_env", "default_model", "ollama_models_path", "available_models", "tool_mode"]
  const McpKeys := ["name", "command", "args", "env", "enabled"]
  const RoleKeys := ["name", "provider_name", "model_id", "system_prompt", "temperature", "active_mcp_servers", "allowed_tools", "autonomy_level"]

  /** `ProviderConfig(**v)` */
  function DecodeProvider(v: Json): (r: Result<ProviderConfig>)
    ensures !v.JObj? || Member(v, "name").None? || Member(v, "type").None? ==> r.Err?
    ensures r.Ok? ==> OnlyKeys(v, ProviderKeys)
    ensures r.Ok? ==> Member(v, "name") == Some(JStr(r.value.name)) && Member(v, "type") == Some(JStr(r.value.kind))
    ensures r.Ok? && Member(v, "default_model").None? ==> r.value.defaultModel == "gpt-4o"
    ensures r.Ok? && Member(v, "tool_mode").None? ==> r.value.toolMode == "auto"
    ensures r.Ok? && Member(v, "available_models").None? ==> r.value.availableModels == []
  {
    if !v.JObj? then Err("TypeError: argument after ** must be a mapping")
    else if !OnlyKeys(v, ProviderKeys) then Err("TypeError: unexpected keyword argument")
    else
      var n :- ReqStr(v, "name");
      var k :- ReqStr(v, "type");
      var b :- OptStr(v, "base_url");
      var a :- OptStr(v, "api_key_env");
      var dm :- StrOr(v, "default_model", "gpt-4o");
      var op :- OptStr(v, "ollama_models_path");
      var am :- StrList(v, "available_models");
      var tm :- StrOr(v, "tool_mode", "auto");
      Ok(ProviderConfig(n, k, b, a, dm, op, am, tm))
  }

  /** `MCPServerConfig(**v)` */
  function DecodeMcpServer(v: Json): (r: Result<McpServerConfig>)
    ensures !v.JObj? || Member(v, "name").None? || Member(v, "command").None? ==> r.Err?
    ensures r.Ok? ==> OnlyKeys(v, McpKeys)
    ensures r.Ok? ==> Member(v, "name") == Some(JStr(r.value.name)) && Member(v, "command") == Some(JStr(r.value.command))
    ensures r.Ok? && Member(v, "enabled").None? ==> r.value.enabled
    ensures r.Ok? && Member(v, "args").None? ==> r.value.args == []
    ensures r.Ok? && Member(v, "env").None? ==> r.value.env == []
  {
    if !v.JObj? then Err("TypeError: argument after ** must be a mapping")
    else if !OnlyKeys(v, McpKeys) then Err("TypeError: unexpected keyword argument")
    else
      var n :- ReqStr(v, "name");
      var c :- ReqStr(v, "command");
      var a :- StrList(v, "args");
      var e :- StrMap(v, "env");
      var en :- BoolOr(v, "enabled", true);
      Ok(McpServerConfig(n, c, a, e, en))
  }

  /** `RoleConfig(**v)` */
  function DecodeRole(v: Json): (r: Result<RoleConfig>)
    ensures !v.JObj? || Member(v, "name").None? || Member(v, "provider_name").None? ==> r.Err?
    ensures v.JObj? && (Member(v, "model_id").None? || Member(v, "system_prompt").None?) ==> r.Err?
    ensures r.Ok? ==> OnlyKeys(v, RoleKeys)
    ensures r.Ok? ==> Member(v, "name") == Some(JStr(r.value.name)) && Member(v, "provider_name") == Some(JStr(r.value.providerName))
    ensures r.Ok? && Member(v, "temperature").None? ==> r.value.temperature == 0.7
    ensures r.Ok? && Member(v, "autonomy_level").None? ==> r.value.autonomyLevel == "balanced"
    ensures r.Ok? && Member(v, "allowed_tools").None? ==> r.value.allowedTools == []
  {
    if !v.JObj? then Err("TypeError: argument after ** must be a mapping")
    else if !OnlyKeys(v, RoleKeys) then Err("TypeError: unexpected keyword argument")
    else
      var n :- ReqStr(v, "name");
      var p :- ReqStr(v, "provider_name");
      var m :- ReqStr(v, "model_id");
      var sp :- ReqStr(v, "system_prompt");
      var t :- RealOr(v, "temperature", 0.7);
      var ms :- StrList(v, "active_mcp_servers");
      var at :- StrList(v, "allowed_tools");
      var al :- StrOr(v, "autonomy_level", "balanced");
      Ok(RoleConfig(n, p, m, sp, t, ms, at, al))
  }

  // ---- writing entries (`asdict`) ----

  function OptJson(x: Option<string>): Json {
    if x.Some? then JStr(x.value) else JNull
  }

  function StrsJson(xs: seq<string>): (r: seq<Json>)
    ensures |r| == |xs|
  {
    if xs == [] then [] else [JStr(xs[0])] + StrsJson(xs[1..])
  }

  function PairsJson(d: Dict<string>): (r: seq<(string, Json)>)
    ensures |r| == |d|
  {
    if d == [] then [] else [(d[0].0, JStr(d[0].1))] + PairsJson(d[1..])
  }

  function EncodeProvider(p: ProviderConfig): (r: Json)
    ensures r.JObj? && PyDict.Keys(r.fields) == ProviderKeys
  {
    JObj([("name", JStr(p.name)), ("type", JStr(p.kind)), ("base_url", OptJson(p.baseUrl)),
          ("api_key_env", OptJson(p.apiKeyEnv)), ("default_model", JStr(p.defaultModel)),
          ("ollama_models_path", OptJson(p.ollamaModelsPath)),
          ("available_models", JArr(StrsJson(p.availableModels))), ("tool_mode", JStr(p.toolMode))])
  }

  function EncodeMcpServer(m: McpServerConfig): (r: Json)
    ensures r.JObj? && PyDict.Keys(r.fields) == McpKeys
  {
    JObj([("name", JStr(m.name)), ("command", JStr(m.command)), ("args", JArr(StrsJson(m.args))),
          ("env", JObj(PairsJson(m.env))), ("enabled", JBool(m.enabled))])
  }

  function EncodeRole(r: RoleConfig): (v: Json)
    ensures v.JObj? && PyDict.Keys(v.fields) == RoleKeys
  {
    JObj([("name", JStr(r.name)), ("provider_name", JStr(r.providerName)), ("model_id", JStr(r.modelId)),
          ("system_prompt", JStr(r.systemPrompt)), ("temperature", JFloat(r.temperature)),
          ("active_mcp_servers", JArr(StrsJson(r.activeMcpServers))),
          ("allowed_tools", JArr(StrsJson(r.allowedTools))), ("autonomy_level", JStr(r.autonomyLevel))])
  }

  function EncodeEntries<V>(d: Dict<V>, enc: V -> Json): (r: seq<(string, Json)>)
    ensures |r| == |d|
    ensures forall i :: 0 <= i < |d| ==> r[i] == (d[i].0, enc(d[i].1))
  {
    if d == [] then [] else [(d[0].0, enc(d[0].1))] + EncodeEntries(d[1..], enc)
  }

  /** The document `save` writes (the YAML text itself is not modelled). */
  function SaveDocument(c: AppConfig): (r: Json)
    ensures r.JObj? && PyDict.Keys(r.fields) == ["providers", "mcp_servers", "roles", "active_role"]
    ensures forall i :: 0 <= i < 3 ==> r.fields[i].1.JObj?
    ensures PyDict.Keys(r.fields[0].1.fields) == PyDict.Keys(c.providers)
    ensures PyDict.Keys(r.fields[1].1.fields) == PyDict.Keys(c.mcpServers)
    ensures PyDict.Keys(r.fields[2].1.fields) == PyDict.Keys(c.roles)
    ensures r.fields[3].1 == c.activeRole
  {
    JObj([("providers", JObj(EncodeEntries(c.providers, EncodeProvider))),
          ("mcp_servers", JObj(EncodeEntries(c.mcpServers, EncodeMcpServer))),
          ("roles", JObj(EncodeEntries(c.roles, EncodeRole))),
          ("active_role", c.activeRole)])
  }

  // ---- loading ----

  /** `data.get(key) or {}` followed by `.items()`: a non-dict truthy section raises. */
  function Section(data: Json, key: string): (r: Result<seq<(string, Json)>>)
    ensures Member(data, key).None? ==> r == Ok([])
    ensures Member(data, key).Some? && Member(data, key).value.JObj? ==> r == Ok(Member(data, key).value.fields)
    ensures r.Err? <==> Member(data, key).Some? && Truthy(Member(data, key).value) && !Member(data, key).value.JObj?
  {
    match Member(data, key)
    case None => Ok([])
    case Some(s) =>
      if !Truthy(s) then Ok([])
      else if s.JObj? then Ok(s.fields)
      else Err("AttributeError: section has no items()")
  }

  /** Overlaying entries one by one; the first entry that cannot be built stops the load (`false`). */
  function Overlay<V>(d: Dict<V>, items: seq<(string, Json)>, decode: Json -> Result<V>): (r: (Dict<V>, bool))
    ensures r.1 <==> forall i :: 0 <= i < |items| ==> decode(items[i].1).Ok?
    ensures |d| <= |r.0| && PyDict.Keys(r.0)[..|d|] == PyDict.Keys(d)
    decreases |items|
  {
    if items == [] then (d, true)
    else match decode(items[0].1)
      case Err(_) => (d, false)
      case Ok(x) =>
        var d1 := PyDict.Put(d, items[0].0, x);
        PyDict.PutShape(d, items[0].0, x);
        assert |d| <= |d1| && PyDict.Keys(d1)[..|d|] == PyDict.Keys(d);
        var r := Overlay(d1, items[1..], decode);
        assert forall i :: 1 <= i < |items| ==> items[i] == items[1..][i - 1];
        r
  }

  /** The configuration after `load`: untouched for a missing file or an empty document; an exception keeps what was loaded so far. */
  function Loaded(c: AppConfig, fileExists: bool, data: Json): (r: AppConfig)
    ensures !fileExists || !Truthy(data) || !data.JObj? ==> r == c
    ensures r.activeRole == c.activeRole || r.activeRole == MemberOr(data, "active_role", JStr("architect"))
    ensures |c.providers| <= |r.providers| && PyDict.Keys(r.providers)[..|c.providers|] == PyDict.Keys(c.providers)
    ensures |c.mcpServers| <= |r.mcpServers| && PyDict.Keys(r.mcpServers)[..|c.mcpServers|] == PyDict.Keys(c.mcpServers)
    ensures |c.roles| <= |r.roles| && PyDict.Keys(r.roles)[..|c.roles|] == PyDict.Keys(c.roles)
  {
    if !fileExists || !Truthy(data) || !data.JObj? then c
    else match Section(data, "providers")
      case Err(_) => c
      case Ok(pi) =>
        var (p, ok1) := Overlay(c.providers, pi, DecodeProvider);
        var c1 := c.(providers := p);
        if !ok1 then c1
        else match Section(data, "mcp_servers")
          case Err(_) => c1
          case Ok(mi) =>
            var (m, ok2) := Overlay(c1.mcpServers, mi, DecodeMcpServer);
            var c2 := c1.(mcpServers := m);
            if !ok2 then c2
            else match Section(data, "roles")
              case Err(_) => c2
              case Ok(ri) =>
                var (r, ok3) := Overlay(c2.roles, ri, DecodeRole);
                var c3 := c2.(roles := r);
                if !ok3 then c3
                else c3.(activeRole := MemberOr(data, "active_role", JStr("architect")))
  }

  /** A missing file or a document that is empty (or null) leaves the configuration untouched. */
  lemma {:induction false} LoadNothing(c: AppConfig, fileExists: bool, data: Json)
    requires !fileExists || !Truthy(data)
    ensures Loaded(c, fileExists, data) == c
  {
  }

  /** Null or missing sections load as empty ones; `active_role` falls back to "architect". */
  lemma {:induction false} LoadNullSections(c: AppConfig, data: Json)
    requires data.JObj? && Truthy(data)
    requires forall key :: key in ["providers", "mcp_servers", "roles"] ==>
      Member(data, key).None? || Member(data, key) == Some(JNull)
    ensures Loaded(c, true, data) == c.(activeRole := MemberOr(data, "active_role", JStr("architect")))
  {
    assert Section(data, "providers") == Ok([]);
    assert Section(data, "mcp_servers") == Ok([]);
    assert Section(data, "roles") == Ok([]);
  }

  /** Overlaying leaves every name that is not loaded as it was, and keeps names distinct. */
  lemma {:induction false} OverlayKeepsOthers<V>(d: Dict<V>, items: seq<(string, Json)>, decode: Json -> Result<V>, k: string)
    requires PyDict.UniqueKeys(d)
    requires forall i :: 0 <= i < |items| ==> items[i].0 != k
    ensures PyDict.UniqueKeys(Overlay(d, items, decode).0)
    ensures PyDict.Get(Overlay(d, items, decode).0, k) == PyDict.Get(d, k)
    decreases |items|
  {
    if items != [] {
      match decode(items[0].1)
      case Err(_) =>
      case Ok(x) =>
        var d1 := PyDict.Put(d, items[0].0, x);
        PyDict.PutUnique(d, items[0].0, x);
        PyDict.GetPut(d, items[0].0, x, k);
        OverlayKeepsOthers(d1, items[1..], decode, k);
    }
  }

  /** Overlaying a completely loadable list stores, under each name, the entry built from its last occurrence. */
  lemma {:induction false} OverlayStoresEntry<V>(d: Dict<V>, items: seq<(string, Json)>, decode: Json -> Result<V>, i: nat)
    requires PyDict.UniqueKeys(d)
    requires Overlay(d, items, decode).1
    requires i < |items| && forall j :: i < j < |items| ==> items[j].0 != items[i].0
    ensures decode(items[i].1).Ok?
    ensures PyDict.Get(Overlay(d, items, decode).0, items[i].0) == Some(decode(items[i].1).value)
    decreases |items|
  {
    var x := decode(items[0].1).value;
    var d1 := PyDict.Put(d, items[0].0, x);
    PyDict.PutUnique(d, items[0].0, x);
    if i == 0 {
      PyDict.GetPut(d, items[0].0, x, items[0].0);
      OverlayKeepsOthers(d1, items[1..], decode, items[0].0);
    } else {
      OverlayStoresEntry(d1, items[1..], decode, i - 1);
    }
  }

  // ---- the save / load round trip ----

  lemma {:induction false} StringsRoundTrip(xs: seq<string>)
    ensures Strings(StrsJson(xs)) == Ok(xs)
  {
    if xs != [] {
      StringsRoundTrip(xs[1..]);
      assert StrsJson(xs)[1..] == StrsJson(xs[1..]);
      assert [xs[0]] + xs[1..] == xs;
    }
  }

  lemma {:induction false} PairsRoundTrip(d: Dict<string>)
    ensures StringPairs(PairsJson(d)) == Ok(d)
  {
    if d != [] {
      PairsRoundTrip(d[1..]);
      assert PairsJson(d)[1..] == PairsJson(d[1..]);
      assert [d[0]] + d[1..] == d;
    }
  }

  lemma {:induction false} ProviderLookups(p: ProviderConfig)
    ensures var v := EncodeProvider(p);
      Member(v, "name") == Some(JStr(p.name)) && Member(v, "type") == Some(JStr(p.kind))
      && Member(v, "base_url") == Some(OptJson(p.baseUrl)) && Member(v, "api_key_env") == Some(OptJson(p.apiKeyEnv))
      && Member(v, "default_model") == Some(JStr(p.defaultModel))
      && Member(v, "ollama_models_path") == Some(OptJson(p.ollamaModelsPath))
      && Member(v, "available_models") == Some(JArr(StrsJson(p.availableModels)))
      && Member(v, "tool_mode") == Some(JStr(p.toolMode))
  {
    var f := EncodeProvider(p).fields;
    PyDict.GetFirstAt(f, 0);
    PyDict.GetFirstAt(f, 1);
    PyDict.GetFirstAt(f, 2);
    PyDict.GetFirstAt(f, 3);
    PyDict.GetFirstAt(f, 4);
    PyDict.GetFirstAt(f, 5);
    PyDict.GetFirstAt(f, 6);
    PyDict.GetFirstAt(f, 7);
  }

  /** Every field `asdict` writes is read back by the constructor call of `load`. */
  lemma {:induction false} ProviderRoundTrip(p: ProviderConfig)
    ensures DecodeProvider(EncodeProvider(p)) == Ok(p)
  {
    ProviderOnlyKeys(p);
    ProviderTextsRead(p);
    ProviderRestRead(p);
  }

  lemma {:induction false} ProviderOnlyKeys(p: ProviderConfig)
    ensures OnlyKeys(EncodeProvider(p), ProviderKeys)
  {
    var v := EncodeProvider(p);
    forall i | 0 <= i < |v.fields| ensures v.fields[i].0 in ProviderKeys {
      assert v.fields[i].0 == ProviderKeys[i];
    }
  }

  lemma {:induction false} ProviderTextsRead(p: ProviderConfig)
    ensures var v := EncodeProvider(p);
      ReqStr(v, "name") == Ok(p.name) && ReqStr(v, "type") == Ok(p.kind)
      && OptStr(v, "base_url") == Ok(p.baseUrl) && OptStr(v, "api_key_env") == Ok(p.apiKeyEnv)
  {
    ProviderLookups(p);
  }

  lemma {:induction false} ProviderRestRead(p: ProviderConfig)
    ensures var v := EncodeProvider(p);
      StrOr(v, "default_model", "gpt-4o") == Ok(p.defaultModel) && OptStr(v, "ollama_models_path") == Ok(p.ollamaModelsPath)
      && StrList(v, "available_models") == Ok(p.availableModels) && StrOr(v, "tool_mode", "auto") == Ok(p.toolMode)
  {
    ProviderLookups(p);
    StringsRoundTrip(p.availableModels);
  }

  lemma {:induction false} McpServerLookups(m: McpServerConfig)
    ensures var v := EncodeMcpServer(m);
      Member(v, "name") == Some(JStr(m.name)) && Member(v, "command") == Some(JStr(m.command))
      && Member(v, "args") == Some(JArr(StrsJson(m.args))) && Member(v, "env") == Some(JObj(PairsJson(m.env)))
      && Member(v, "enabled") == Some(JBool(m.enabled))
  {
    var f := EncodeMcpServer(m).fields;
    PyDict.GetFirstAt(f, 0);
    PyDict.GetFirstAt(f, 1);
    PyDict.GetFirstAt(f, 2);
    PyDict.GetFirstAt(f, 3);
    PyDict.GetFirstAt(f, 4);
  }

  lemma {:induction false} McpServerOnlyKeys(m: McpServerConfig)
    ensures OnlyKeys(EncodeMcpServer(m), McpKeys)
  {
    var v := EncodeMcpServer(m);
    forall i | 0 <= i < |v.fields| ensures v.fields[i].0 in McpKeys {
      assert v.fields[i].0 == McpKeys[i];
    }
  }

  lemma {:induction false} McpServerFieldsRead(m: McpServerConfig)
    ensures var v := EncodeMcpServer(m);
      ReqStr(v, "name") == Ok(m.name) && ReqStr(v, "command") == Ok(m.command)
      && StrList(v, "args") == Ok(m.args) && StrMap(v, "env") == Ok(m.env)
      && BoolOr(v, "enabled", true) == Ok(m.enabled)
  {
    McpServerLookups(m);
    StringsRoundTrip(m.args);
    PairsRoundTrip(m.env);
  }

  lemma {:induction false} McpServerRoundTrip(m: McpServerConfig)
    ensures DecodeMcpServer(EncodeMcpServer(m)) == Ok(m)
  {
    McpServerOnlyKeys(m);
    McpServerFieldsRead(m);
  }

  lemma {:induction false} RoleLookups(r: RoleConfig)
    ensures var v := EncodeRole(r);
      Member(v, "name") == Some(JStr(r.name)) && Member(v, "provider_name") == Some(JStr(r.providerName))
      && Member(v, "model_id") == Some(JStr(r.modelId)) && Member(v, "system_prompt") == Some(JStr(r.systemPrompt))
      && Member(v, "temperature") == Some(JFloat(r.temperature))
      && Member(v, "active_mcp_servers") == Some(JArr(StrsJson(r.activeMcpServers)))
      && Member(v, "allowed_tools") == Some(JArr(StrsJson(r.allowedTools)))
      && Member(v, "autonomy_level") == Some(JStr(r.autonomyLevel))
  {
    var f := EncodeRole(r).fields;
    PyDict.GetFirstAt(f, 0);
    PyDict.GetFirstAt(f, 1);
    PyDict.GetFirstAt(f, 2);
    PyDict.GetFirstAt(f, 3);
    PyDict.GetFirstAt(f, 4);
    PyDict.GetFirstAt(f, 5);
    PyDict.GetFirstAt(f, 6);
    PyDict.GetFirstAt(f, 7);
  }

  lemma {:induction false} RoleRoundTrip(r: RoleConfig)
    ensures DecodeRole(EncodeRole(r)) == Ok(r)
  {
    RoleOnlyKeys(r);
    RoleTextsRead(r);
    RoleRestRead(r);
  }

  lemma {:induction false} RoleOnlyKeys(r: RoleConfig)
    ensures OnlyKeys(EncodeRole(r), RoleKeys)
  {
    var v := EncodeRole(r);
    forall i | 0 <= i < |v.fields| ensures v.fields[i].0 in RoleKeys {
      assert v.fields[i].0 == RoleKeys[i];
    }
  }

  lemma {:induction false} RoleTextsRead(r: RoleConfig)
    ensures var v := EncodeRole(r);
      ReqStr(v, "name") == Ok(r.name) && ReqStr(v, "provider_name") == Ok(r.providerName)
      && ReqStr(v, "model_id") == Ok(r.modelId) && ReqStr(v, "system_prompt") == Ok(r.systemPrompt)
  {
    RoleLookups(r);
  }

  lemma {:induction false} RoleRestRead(r: RoleConfig)
    ensures var v := EncodeRole(r);
      RealOr(v, "temperature", 0.7) == Ok(r.temperature)
      && StrList(v, "active_mcp_servers") == Ok(r.activeMcpServers) && StrList(v, "allowed_tools") == Ok(r.allowedTools)
      && StrOr(v, "autonomy_level", "balanced") == Ok(r.autonomyLevel)
  {
    RoleLookups(r);
    StringsRoundTrip(r.activeMcpServers);
    StringsRoundTrip(r.allowedTools);
  }

  /** Overlaying the saved entries of `d` onto its own first `i` entries rebuilds `d`. */
  lemma {:induction false} OverlayRebuilds<V>(d: Dict<V>, enc: V -> Json, decode: Json -> Result<V>, i: nat)
    requires PyDict.UniqueKeys(d) && i <= |d|
    requires forall x :: decode(enc(x)) == Ok(x)
    ensures Overlay(d[..i], EncodeEntries(d, enc)[i..], decode) == (d, true)
    decreases |d| - i
  {
    var items := EncodeEntries(d, enc);
    if i == |d| {
      assert d[..i] == d;
    } else {
      assert items[i..][0] == (d[i].0, enc(d[i].1));
      assert items[i..][1..] == items[i + 1..];
      assert !PyDict.HasKey(d[..i], d[i].0) by {
        forall j | 0 <= j < i ensures d[..i][j].0 != d[i].0 {
          assert d[..i][j] == d[j];
        }
      }
      PyDict.PutShape(d[..i], d[i].0, d[i].1);
      assert d[..i] + [d[i]] == d[..i + 1];
      OverlayRebuilds(d, enc, decode, i + 1);
    }
  }

  /** A document whose three sections load completely yields exactly what they hold. */
  lemma {:induction false} LoadedComplete(data: Json, p: Dict<ProviderConfig>, m: Dict<McpServerConfig>, r: Dict<RoleConfig>, act: Json)
    requires data.JObj? && data.fields != []
    requires Section(data, "providers").Ok? && Overlay([], Section(data, "providers").value, DecodeProvider) == (p, true)
    requires Section(data, "mcp_servers").Ok? && Overlay([], Section(data, "mcp_servers").value, DecodeMcpServer) == (m, true)
    requires Section(data, "roles").Ok? && Overlay([], Section(data, "roles").value, DecodeRole) == (r, true)
    requires Member(data, "active_role") == Some(act)
    ensures Loaded(EmptyConfig, true, data) == AppConfig(p, m, r, act)
  {
  }

  lemma {:induction false} SaveSections(c: AppConfig)
    ensures var doc := SaveDocument(c);
      Section(doc, "providers") == Ok(EncodeEntries(c.providers, EncodeProvider))
      && Section(doc, "mcp_servers") == Ok(EncodeEntries(c.mcpServers, EncodeMcpServer))
      && Section(doc, "roles") == Ok(EncodeEntries(c.roles, EncodeRole))
      && Member(doc, "active_role") == Some(c.activeRole)
  {
    var f := SaveDocument(c).fields;
    SavedAt(c, 0);
    SavedAt(c, 1);
    SavedAt(c, 2);
    SavedAt(c, 3);
    SectionOfObject(SaveDocument(c), "providers", EncodeEntries(c.providers, EncodeProvider));
    SectionOfObject(SaveDocument(c), "mcp_servers", EncodeEntries(c.mcpServers, EncodeMcpServer));
    SectionOfObject(SaveDocument(c), "roles", EncodeEntries(c.roles, EncodeRole));
  }

  /** The saved document's `i`-th entry is found under its key. */
  lemma {:induction false} SavedAt(c: AppConfig, i: nat)
    requires i < 4
    ensures Member(SaveDocument(c), SaveDocument(c).fields[i].0) == Some(SaveDocument(c).fields[i].1)
  {
    var f := SaveDocument(c).fields;
    assert f[0].0 == "providers" && f[1].0 == "mcp_servers" && f[2].0 == "roles" && f[3].0 == "active_role";
    if i >= 1 {
      assert "providers" != "mcp_servers" by { assert "providers"[0] != "mcp_servers"[0]; }
      assert "providers" != "roles" by { assert "providers"[0] != "roles"[0]; }
      assert "providers" != "active_role" by { assert "providers"[0] != "active_role"[0]; }
    }
    if i >= 2 {
      assert "mcp_servers" != "roles" by { assert "mcp_servers"[0] != "roles"[0]; }
      assert "mcp_servers" != "active_role" by { assert "mcp_servers"[0] != "active_role"[0]; }
    }
    if i == 3 {
      assert "roles" != "active_role" by { assert "roles"[0] != "active_role"[0]; }
    }
    PyDict.GetFirstAt(f, i);
  }

  /** A section stored as an object yields its entries. */
  lemma {:induction false} SectionOfObject(data: Json, key: string, entries: seq<(string, Json)>)
    requires Member(data, key) == Some(JObj(entries))
    ensures Section(data, key) == Ok(entries)
  {
  }

  /** Overlaying the saved entries of a dict with distinct names onto an empty one rebuilds it. */
  lemma {:induction false} OverlayAll<V>(d: Dict<V>, enc: V -> Json, decode: Json -> Result<V>)
    requires PyDict.UniqueKeys(d)
    requires forall x :: decode(enc(x)) == Ok(x)
    ensures Overlay([], EncodeEntries(d, enc), decode) == (d, true)
  {
    OverlayRebuilds(d, enc, decode, 0);
    assert EncodeEntries(d, enc)[0..] == EncodeEntries(d, enc);
    assert d[..0] == [];
  }

  /** Saving and loading the document into a fresh store reproduces every entry and the active role. */
  lemma {:induction false} SaveLoadRoundTrip(c: AppConfig)
    requires PyDict.UniqueKeys(c.providers) && PyDict.UniqueKeys(c.mcpServers) && PyDict.UniqueKeys(c.roles)
    ensures Loaded(EmptyConfig, true, SaveDocument(c)) == c
  {
    SaveSections(c);
    forall p ensures DecodeProvider(EncodeProvider(p)) == Ok(p) { ProviderRoundTrip(p); }
    forall m ensures DecodeMcpServer(EncodeMcpServer(m)) == Ok(m) { McpServerRoundTrip(m); }
    forall r ensures DecodeRole(EncodeRole(r)) == Ok(r) { RoleRoundTrip(r); }
    OverlayAll(c.providers, EncodeProvider, DecodeProvider);
    OverlayAll(c.mcpServers, EncodeMcpServer, DecodeMcpServer);
    OverlayAll(c.roles, EncodeRole, DecodeRole);
    LoadedComplete(SaveDocument(c), c.providers, c.mcpServers, c.roles, c.activeRole);
  }

  /** The store: the configuration maps are fields that `load` and `_ensure_defaults` update. */
  class ConfigStore {
    var providers: Dict<ProviderConfig>
    var mcpServers: Dict<McpServerConfig>
    var roles: Dict<RoleConfig>
    var activeRole: Json

    function Config(): AppConfig
      reads this
    {
      AppConfig(providers, mcpServers, roles, activeRole)
    }

    /** A file that exists is loaded (even when that leaves the maps empty); otherwise the defaults are written. */
    constructor (fileExists: bool, data: Json)
      ensures Config() == if fileExists then Loaded(EmptyConfig, true, data) else WithDefaults(EmptyConfig)
    {
      providers, mcpServers, roles, activeRole := [], [], [], JStr("architect");
      new;
      if fileExists {
        Load(true, data);
      } else {
        EnsureDefaults();
      }
    }

    /** `_ensure_defaults()` */
    method EnsureDefaults()
      modifies this
      ensures Config() == WithDefaults(old(Config()))
    {
      assert "openai" != "anthropic" by { assert "openai"[0] != "anthropic"[0]; }
      assert "openai" != "ollama_local" by { assert "openai"[1] != "ollama_local"[1]; }
      assert "anthropic" != "ollama_local" by { assert "anthropic"[0] != "ollama_local"[0]; }
      assert "architect" != "developer" by { assert "architect"[0] != "developer"[0]; }
      if providers == [] {
        providers := PyDict.Put(providers, "openai", DefaultProviders[0].1);
        PyDict.PutNew(providers, "anthropic", DefaultProviders[1].1);
        providers := PyDict.Put(providers, "anthropic", DefaultProviders[1].1);
        PyDict.PutNew(providers, "ollama_local", DefaultProviders[2].1);
        providers := PyDict.Put(providers, "ollama_local", DefaultProviders[2].1);
      }
      if mcpServers == [] {
        mcpServers := PyDict.Put(mcpServers, "internal_fs", DefaultMcpServers[0].1);
      }
      if roles == [] {
        roles := PyDict.Put(roles, "architect", DefaultRoles[0].1);
        PyDict.PutNew(roles, "developer", DefaultRoles[1].1);
        roles := PyDict.Put(roles, "developer", DefaultRoles[1].1);
      }
    }

    /** `load()` over the parsed document `data`. */
    method Load(fileExists: bool, data: Json)
      modifies this
      ensures Config() == Loaded(old(Config()), fileExists, data)
    {
      if !fileExists || !Truthy(data) || !data.JObj? {
        return;
      }
      var sec := Section(data, "providers");
      if sec.Err? {
        return;
      }
      var ok;
      providers, ok := OverlayLoop(providers, sec.value, DecodeProvider);
      if !ok {
        return;
      }
      sec := Section(data, "mcp_servers");
      if sec.Err? {
        return;
      }
      mcpServers, ok := OverlayLoop(mcpServers, sec.value, DecodeMcpServer);
      if !ok {
        return;
      }
      sec := Section(data, "roles");
      if sec.Err? {
        return;
      }
      roles, ok := OverlayLoop(roles, sec.value, DecodeRole);
      if !ok {
        return;
      }
      activeRole := MemberOr(data, "active_role", JStr("architect"));
    }

    /** `save()`: the document written; the store itself is unchanged. */
    method Save() returns (doc: Json)
      ensures doc == SaveDocument(Config())
    {
      doc := SaveDocument(Config());
    }

    /** `get_role(name)` */
    function GetRole(name: string): (r: Option<RoleConfig>)
      reads this
      ensures r.Some? <==> PyDict.HasKey(roles, name)
      ensures r.Some? ==> (name, r.value) in roles
    {
      PyDict.GetSome(roles, name);
      PyDict.Get(roles, name)
    }

    /** `get_provider(name)` */
    function GetProvider(name: string): (r: Option<ProviderConfig>)
      reads this
      ensures r.Some? <==> PyDict.HasKey(providers, name)
      ensures r.Some? ==> (name, r.value) in providers
    {
      PyDict.GetSome(providers, name);
      PyDict.Get(providers, name)
    }
  }

  /** The `for k, v in section.items()` loop: entries are assigned one at a time until one cannot be built. */
  method OverlayLoop<V>(d: Dict<V>, items: seq<(string, Json)>, decode: Json -> Result<V>) returns (r: Dict<V>, ok: bool)
    ensures (r, ok) == Overlay(d, items, decode)
  {
    r := d;
    var i := 0;
    while i < |items|
      invariant i <= |items|
      invariant Overlay(d, items, decode) == Overlay(r, items[i..], decode)
    {
      assert items[i..][0] == items[i] && items[i..][1..] == items[i + 1..];
      match decode(items[i].1)
      case Err(_) =>
        return r, false;
      case Ok(x) =>
        r := PyDict.Put(r, items[i].0, x);
      i := i + 1;
    }
    return r, true;
  }
}
