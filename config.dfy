/** `src/config.rs`: the plugin configuration, its defaults, the overlay of the
    table the Lua side passes to `setup`, and the API keys taken from the
    environment. A Lua table is a map from its string keys to Lua values; a key
    that is not in the map reads as `nil`. */
module Config {
  import opened Common
  import opened Text

  /** The Lua values a configuration table can hold. `nil` is never stored in a
      table, so it is not a value here: a missing key reads as `None`. */
  datatype LuaValue =
    | LBool(b: bool)
    | LInteger(i: int)
    | LNumber(r: real)
    | LString(s: string)
    | LTable(t: map<string, LuaValue>)
    | LFunction

  type LuaTable = map<string, LuaValue>

  /** `table.get(key)`: the raw value, `None` for `nil`. */
  function Get(t: LuaTable, key: string): (v: Option<LuaValue>)
    ensures v.Some? <==> key in t
    ensures v.Some? ==> v.value == t[key]
  {
    if key in t then Some(t[key]) else None
  }

  /** Decimal text of an integer, as Lua writes it. */
  function IntToString(i: int): string {
    if i < 0 then "-" + NatToString(-i) else NatToString(i)
  }

  /** Conversion to `String`: a string, or an integer written in decimal (Lua's
      coercion); anything else is a conversion error. */
  function AsString(v: Option<LuaValue>): (s: Option<string>)
    ensures v.Some? && v.value.LString? ==> s == Some(v.value.s)
    ensures s.Some? ==> v.Some? && (v.value.LString? || v.value.LInteger?)
  {
    match v
    case Some(LString(s)) => Some(s)
    case Some(LInteger(i)) => Some(IntToString(i))
    case _ => None
  }

  /** Conversion to `LuaTable`: only a table converts. */
  function AsTable(v: Option<LuaValue>): (t: Option<LuaTable>)
    ensures t.Some? <==> v.Some? && v.value.LTable?
    ensures t.Some? ==> t.value == v.value.t
  {
    match v
    case Some(LTable(t)) => Some(t)
    case _ => None
  }

  /** Conversion to an unsigned integer type below `limit` (`usize` on a 64-bit
      target, `u16`): an integer in range, or a number whose truncation toward
      zero is in range. */
  function AsUnsigned(v: Option<LuaValue>, limit: nat): (n: Option<nat>)
    ensures n.Some? ==> n.value < limit
    ensures v.Some? && v.value.LInteger? ==> (n.Some? <==> 0 <= v.value.i < limit)
    ensures v.Some? && v.value.LInteger? && n.Some? ==> n.value == v.value.i
    ensures n.Some? ==> v.Some? && (v.value.LInteger? || v.value.LNumber?)
  {
    match v
    case Some(LInteger(i)) => if 0 <= i < limit then Some(i) else None
    case Some(LNumber(r)) =>
      var truncated: nat := if r <= -1.0 then 0 else if r < 0.0 then 0 else r.Floor;
      if -1.0 < r && truncated < limit then Some(truncated) else None
    case _ => None
  }

  /** Conversion to `f32`, without the rounding to single precision. */
  function AsReal(v: Option<LuaValue>): (x: Option<real>)
    ensures x.Some? <==> v.Some? && (v.value.LInteger? || v.value.LNumber?)
  {
    match v
    case Some(LInteger(i)) => Some(i as real)
    case Some(LNumber(r)) => Some(r)
    case _ => None
  }

  /** mlua's conversion to `bool`: Lua truthiness, so it never fails, and `nil`
      (a missing key) reads as `false`. */
  function MluaBool(v: Option<LuaValue>): (b: Option<bool>)
    ensures b.Some?
    ensures v.None? ==> b == Some(false)
    ensures v.Some? && v.value.LBool? ==> b == Some(v.value.b)
    ensures v.Some? && !v.value.LBool? ==> b == Some(true)
  {
    match v
    case None => Some(false)
    case Some(LBool(b)) => Some(b)
    case Some(_) => Some(true)
  }

  /** The reading the overlay evidently intends: only a boolean is a flag, and
      anything else, a missing key included, leaves the default. */
  function StrictBool(v: Option<LuaValue>): (b: Option<bool>)
    ensures b.Some? <==> v.Some? && v.value.LBool?
    ensures b.Some? ==> b.value == v.value.b
  {
    match v
    case Some(LBool(b)) => Some(b)
    case _ => None
  }

  // The defaults.

  const DefaultProvider: string := "openai"
  const DefaultModel: string := "gpt-4"
  const DefaultTemperature: real := 0.7
  const DefaultMaxTokens: nat := 2048
  const DefaultStream: bool := false
  const DefaultAutoReload: bool := true

  /** The largest `usize` plus one, on a 64-bit target. */
  const UsizeLimit: nat := 0x1_0000_0000_0000_0000
  /** The largest `u16` plus one. */
  const PortLimit: nat := 0x1_0000

  /** The message of a failed conversion of an `api_keys` entry; mlua's exact
      wording is not part of this model. */
  const ConversionError: string := "error converting Lua value to String"

  datatype Keymaps = Keymaps(
    chat: Option<string>,
    edit: Option<string>,
    explain: Option<string>,
    create: Option<string>,
    analyze: Option<string>,
    models: Option<string>,
    tasks: Option<string>,
    chatStream: Option<string>)

  /** `Keymaps::default` */
  const DefaultKeymaps: Keymaps := Keymaps(Some("<leader>zc"), Some("<leader>ze"), Some("<leader>zx"), Some("<leader>zn"),
                                           Some("<leader>za"), Some("<leader>zm"), Some("<leader>zt"), Some("<leader>zs"))

  datatype ServerConfig = ServerConfig(host: string, port: nat, autoStart: bool)

  /** `ServerConfig::default` */
  const DefaultServer: ServerConfig := ServerConfig("127.0.0.1", 7777, true)

  /** One keymap entry of a `keymaps` table: a string replaces the default. */
  function KeymapEntry(t: LuaTable, key: string, default: Option<string>): (k: Option<string>)
    ensures AsString(Get(t, key)).Some? ==> k == AsString(Get(t, key))
    ensures AsString(Get(t, key)).None? ==> k == default
  {
    match AsString(Get(t, key))
    case Some(s) => Some(s)
    case None => default
  }

  /** The keymaps a `keymaps` table gives: each entry overlays its default. */
  function KeymapsOf(t: LuaTable): Keymaps {
    Keymaps(KeymapEntry(t, "chat", DefaultKeymaps.chat), KeymapEntry(t, "edit", DefaultKeymaps.edit),
            KeymapEntry(t, "explain", DefaultKeymaps.explain), KeymapEntry(t, "create", DefaultKeymaps.create),
            KeymapEntry(t, "analyze", DefaultKeymaps.analyze), KeymapEntry(t, "models", DefaultKeymaps.models),
            KeymapEntry(t, "tasks", DefaultKeymaps.tasks), KeymapEntry(t, "chat_stream", DefaultKeymaps.chatStream))
  }

  /** The server settings a `server` table gives, with `readBool` reading the
      `auto_start` flag. */
  function ServerOf(t: LuaTable, readBool: Option<LuaValue> -> Option<bool>): ServerConfig {
    ServerConfig(AsString(Get(t, "host")).GetOr(DefaultServer.host),
                 AsUnsigned(Get(t, "port"), PortLimit).GetOr(DefaultServer.port),
                 readBool(Get(t, "auto_start")).GetOr(DefaultServer.autoStart))
  }

  /** Every entry of an `api_keys` table converts to a string. */
  predicate ApiKeysReadable(table: LuaTable) {
    match AsTable(Get(table, "api_keys"))
    case None => true
    case Some(t) => forall k :: k in t ==> AsString(Get(t, k)).Some?
  }

  /** The entries of an `api_keys` table, as strings. */
  function StringEntries(t: LuaTable): (m: map<string, string>)
    ensures m.Keys == t.Keys
    ensures forall k :: k in t ==> m[k] == AsString(Get(t, k)).GetOr("")
  {
    map k | k in t :: AsString(Get(t, k)).GetOr("")
  }

  /** The API keys `api_keys` gives: none when it is missing or not a table. */
  function ApiKeysOf(table: LuaTable): map<string, string> {
    match AsTable(Get(table, "api_keys"))
    case None => map[]
    case Some(t) => StringEntries(t)
  }

  /** The API keys after `load_from_env`: each of the three variables that is
      set gives its entry, replacing the table's, and every other entry stays. */
  function WithEnv(keys: map<string, string>, env: map<string, string>): (r: map<string, string>)
    ensures forall k :: k !in {"openai", "claude", "copilot"} ==> (k in r <==> k in keys)
    ensures forall k :: k in keys && k !in {"openai", "claude", "copilot"} ==> r[k] == keys[k]
    ensures r.Keys == keys.Keys + EnvKeys(env)
    ensures "OPENAI_API_KEY" in env ==> r["openai"] == env["OPENAI_API_KEY"]
    ensures "ANTHROPIC_API_KEY" in env ==> r["claude"] == env["ANTHROPIC_API_KEY"]
    ensures "GITHUB_TOKEN" in env ==> r["copilot"] == env["GITHUB_TOKEN"]
    ensures "OPENAI_API_KEY" !in env && "openai" in keys ==> r["openai"] == keys["openai"]
    ensures "ANTHROPIC_API_KEY" !in env && "claude" in keys ==> r["claude"] == keys["claude"]
    ensures "GITHUB_TOKEN" !in env && "copilot" in keys ==> r["copilot"] == keys["copilot"]
  {
    var withOpenAI := if "OPENAI_API_KEY" in env then keys["openai" := env["OPENAI_API_KEY"]] else keys;
    var withClaude := if "ANTHROPIC_API_KEY" in env then withOpenAI["claude" := env["ANTHROPIC_API_KEY"]] else withOpenAI;
    if "GITHUB_TOKEN" in env then withClaude["copilot" := env["GITHUB_TOKEN"]] else withClaude
  }

  /** The keys the set variables give. */
  function EnvKeys(env: map<string, string>): set<string> {
    (if "OPENAI_API_KEY" in env then {"openai"} else {})
    + (if "ANTHROPIC_API_KEY" in env then {"claude"} else {})
    + (if "GITHUB_TOKEN" in env then {"copilot"} else {})
  }

  class Config {
    var apiKeys: map<string, string>
    var defaultProvider: string
    var defaultModel: string
    var temperature: real
    var maxTokens: nat
    var stream: bool
    var autoReload: bool
    var keymaps: Keymaps
    var server: ServerConfig

    /** `Config::default` */
    constructor ()
      ensures IsDefault()
    {
      apiKeys := map[];
      defaultProvider := DefaultProvider;
      defaultModel := DefaultModel;
      temperature := DefaultTemperature;
      maxTokens := DefaultMaxTokens;
      stream := DefaultStream;
      autoReload := DefaultAutoReload;
      keymaps := DefaultKeymaps;
      server := DefaultServer;
    }

    /** Every setting has its default value. */
    ghost predicate IsDefault()
      reads this
    {
      && apiKeys == map[] && defaultProvider == DefaultProvider && defaultModel == DefaultModel
      && temperature == DefaultTemperature && maxTokens == DefaultMaxTokens && stream == DefaultStream
      && autoReload == DefaultAutoReload && keymaps == DefaultKeymaps && server == DefaultServer
    }

    /** The settings are the defaults overlaid by `table`, with `readBool`
        reading the flags. */
    ghost predicate Overlaid(table: LuaTable, readBool: Option<LuaValue> -> Option<bool>)
      reads this
    {
      && apiKeys == ApiKeysOf(table)
      && defaultProvider == AsString(Get(table, "default_provider")).GetOr(DefaultProvider)
      && defaultModel == AsString(Get(table, "default_model")).GetOr(DefaultModel)
      && temperature == AsReal(Get(table, "temperature")).GetOr(DefaultTemperature)
      && maxTokens == AsUnsigned(Get(table, "max_tokens"), UsizeLimit).GetOr(DefaultMaxTokens)
      && stream == readBool(Get(table, "stream")).GetOr(DefaultStream)
      && autoReload == readBool(Get(table, "auto_reload")).GetOr(DefaultAutoReload)
      && keymaps == (match AsTable(Get(table, "keymaps")) case Some(t) => KeymapsOf(t) case None => DefaultKeymaps)
      && server == (match AsTable(Get(table, "server")) case Some(t) => ServerOf(t, readBool) case None => DefaultServer)
    }

    /** The `pairs` loop over `api_keys`: every entry is inserted, in whatever
        order the table yields them; an entry that does not convert stops it. */
    method InsertApiKeys(t: LuaTable) returns (ok: bool)
      modifies this
      ensures ok <==> forall k :: k in t ==> AsString(Get(t, k)).Some?
      ensures ok ==> apiKeys == old(apiKeys) + StringEntries(t)
      ensures && defaultProvider == old(defaultProvider) && defaultModel == old(defaultModel)
              && temperature == old(temperature) && maxTokens == old(maxTokens) && stream == old(stream)
              && autoReload == old(autoReload) && keymaps == old(keymaps) && server == old(server)
    {
      var keys := apiKeys;
      var rest := t.Keys;
      ghost var seen: set<string> := {};
      while rest != {}
        invariant rest !! seen && rest + seen == t.Keys
        invariant forall k :: k in seen ==> AsString(Get(t, k)).Some?
        invariant keys == old(apiKeys) + map k | k in seen :: AsString(Get(t, k)).GetOr("")
        decreases rest
      {
        var k :| k in rest;
        var v := AsString(Get(t, k));
        if v.None? {
          return false;
        }
        keys := keys[k := v.value];
        rest := rest - {k};
        seen := seen + {k};
      }
      assert seen == t.Keys;
      apiKeys := keys;
      ok := true;
    }

    /** The overlay of the four plain settings that are not flags. */
    method SetValues(table: LuaTable)
      modifies this
      requires && defaultProvider == DefaultProvider && defaultModel == DefaultModel
               && temperature == DefaultTemperature && maxTokens == DefaultMaxTokens
      ensures && defaultProvider == AsString(Get(table, "default_provider")).GetOr(DefaultProvider)
              && defaultModel == AsString(Get(table, "default_model")).GetOr(DefaultModel)
              && temperature == AsReal(Get(table, "temperature")).GetOr(DefaultTemperature)
              && maxTokens == AsUnsigned(Get(table, "max_tokens"), UsizeLimit).GetOr(DefaultMaxTokens)
      ensures && apiKeys == old(apiKeys) && stream == old(stream) && autoReload == old(autoReload)
              && keymaps == old(keymaps) && server == old(server)
    {
      var provider := AsString(Get(table, "default_provider"));
      if provider.Some? { defaultProvider := provider.value; }
      var model := AsString(Get(table, "default_model"));
      if model.Some? { defaultModel := model.value; }
      var temp := AsReal(Get(table, "temperature"));
      if temp.Some? { temperature := temp.value; }
      var tokens := AsUnsigned(Get(table, "max_tokens"), UsizeLimit);
      if tokens.Some? { maxTokens := tokens.value; }
    }

    /** The overlay of the two top-level flags. */
    method SetFlags(table: LuaTable, readBool: Option<LuaValue> -> Option<bool>)
      modifies this
      requires stream == DefaultStream && autoReload == DefaultAutoReload
      ensures stream == readBool(Get(table, "stream")).GetOr(DefaultStream)
      ensures autoReload == readBool(Get(table, "auto_reload")).GetOr(DefaultAutoReload)
      ensures && apiKeys == old(apiKeys) && defaultProvider == old(defaultProvider) && defaultModel == old(defaultModel)
              && temperature == old(temperature) && maxTokens == old(maxTokens)
              && keymaps == old(keymaps) && server == old(server)
    {
      var streamFlag := readBool(Get(table, "stream"));
      if streamFlag.Some? { stream := streamFlag.value; }
      var reload := readBool(Get(table, "auto_reload"));
      if reload.Some? { autoReload := reload.value; }
    }

    /** The overlay of the two sub-tables, each starting from its defaults. */
    method SetTables(table: LuaTable, readBool: Option<LuaValue> -> Option<bool>)
      modifies this
      requires keymaps == DefaultKeymaps && server == DefaultServer
      ensures keymaps == (match AsTable(Get(table, "keymaps")) case Some(t) => KeymapsOf(t) case None => DefaultKeymaps)
      ensures server == (match AsTable(Get(table, "server")) case Some(t) => ServerOf(t, readBool) case None => DefaultServer)
      ensures && apiKeys == old(apiKeys) && defaultProvider == old(defaultProvider) && defaultModel == old(defaultModel)
              && temperature == old(temperature) && maxTokens == old(maxTokens) && stream == old(stream)
              && autoReload == old(autoReload)
    {
      var keymapsTable := AsTable(Get(table, "keymaps"));
      if keymapsTable.Some? {
        keymaps := KeymapsFrom(keymapsTable.value);
      }
      var serverTable := AsTable(Get(table, "server"));
      if serverTable.Some? {
        server := ServerFrom(serverTable.value, readBool);
      }
    }

    /** `load_from_env`: the three keys present in the environment are set, and
        nothing else changes. */
    method LoadFromEnv(env: map<string, string>)
      modifies this
      ensures apiKeys == WithEnv(old(apiKeys), env)
      ensures && defaultProvider == old(defaultProvider) && defaultModel == old(defaultModel)
              && temperature == old(temperature) && maxTokens == old(maxTokens) && stream == old(stream)
              && autoReload == old(autoReload) && keymaps == old(keymaps) && server == old(server)
    {
      if "OPENAI_API_KEY" in env {
        apiKeys := apiKeys["openai" := env["OPENAI_API_KEY"]];
      }
      if "ANTHROPIC_API_KEY" in env {
        apiKeys := apiKeys["claude" := env["ANTHROPIC_API_KEY"]];
      }
      if "GITHUB_TOKEN" in env {
        apiKeys := apiKeys["copilot" := env["GITHUB_TOKEN"]];
      }
    }
  }

  /** The `keymaps` overlay: starts from the default keymaps and replaces each
      entry the table gives as a string. */
  method KeymapsFrom(t: LuaTable) returns (keymaps: Keymaps)
    ensures keymaps == KeymapsOf(t)
  {
    keymaps := DefaultKeymaps;
    var v := AsString(Get(t, "chat"));
    if v.Some? { keymaps := keymaps.(chat := v); }
    v := AsString(Get(t, "edit"));
    if v.Some? { keymaps := keymaps.(edit := v); }
    v := AsString(Get(t, "explain"));
    if v.Some? { keymaps := keymaps.(explain := v); }
    v := AsString(Get(t, "create"));
    if v.Some? { keymaps := keymaps.(create := v); }
    v := AsString(Get(t, "analyze"));
    if v.Some? { keymaps := keymaps.(analyze := v); }
    v := AsString(Get(t, "models"));
    if v.Some? { keymaps := keymaps.(models := v); }
    v := AsString(Get(t, "tasks"));
    if v.Some? { keymaps := keymaps.(tasks := v); }
    v := AsString(Get(t, "chat_stream"));
    if v.Some? { keymaps := keymaps.(chatStream := v); }
  }

  /** The `server` overlay: starts from the default server settings. */
  method ServerFrom(t: LuaTable, readBool: Option<LuaValue> -> Option<bool>) returns (server: ServerConfig)
    ensures server == ServerOf(t, readBool)
  {
    server := DefaultServer;
    var host := AsString(Get(t, "host"));
    if host.Some? { server := server.(host := host.value); }
    var port := AsUnsigned(Get(t, "port"), PortLimit);
    if port.Some? { server := server.(port := port.value); }
    var autoStart := readBool(Get(t, "auto_start"));
    if autoStart.Some? { server := server.(autoStart := autoStart.value); }
  }

  /** `from_lua_table`, with `readBool` reading the flags: the defaults, then one
      key at a time. It fails only when an `api_keys` entry does not convert. */
  method FromLuaTableWith(table: LuaTable, readBool: Option<LuaValue> -> Option<bool>) returns (r: Result<Config>)
    ensures r.Err? <==> !ApiKeysReadable(table)
    ensures r.Ok? ==> fresh(r.value) && r.value.Overlaid(table, readBool)
  {
    var config := new Config();
    var keys := AsTable(Get(table, "api_keys"));
    if keys.Some? {
      var ok := config.InsertApiKeys(keys.value);
      if !ok {
        return Err(ConversionError);
      }
      assert map[] + StringEntries(keys.value) == StringEntries(keys.value);
    }
    config.SetValues(table);
    config.SetFlags(table, readBool);
    config.SetTables(table, readBool);
    r := Ok(config);
  }

  /** `from_lua_table` as written: flags are read with mlua's truthiness. */
  method FromLuaTableAsWritten(table: LuaTable) returns (r: Result<Config>)
    ensures r.Err? <==> !ApiKeysReadable(table)
    ensures r.Ok? ==> fresh(r.value) && r.value.Overlaid(table, MluaBool)
  {
    r := FromLuaTableWith(table, MluaBool);
  }

  /** `from_lua_table` as evidently intended: a flag that is missing or not a
      boolean leaves its default. */
  method FromLuaTable(table: LuaTable) returns (r: Result<Config>)
    ensures r.Err? <==> !ApiKeysReadable(table)
    ensures r.Ok? ==> fresh(r.value) && r.value.Overlaid(table, StrictBool)
  {
    r := FromLuaTableWith(table, StrictBool);
  }

  /** With the intended reading, an empty table gives exactly the defaults; and
      with either reading, a missing key leaves its default. */
  lemma EmptyTableGivesDefaults(c: Config)
    requires c.Overlaid(map[], StrictBool)
    ensures c.IsDefault()
  {
    assert AsTable(Get(map[], "keymaps")).None? && AsTable(Get(map[], "server")).None?;
  }

  /** As written, an empty table switches off auto-reload, whose default is on:
      a missing flag reads as `false`. */
  lemma EmptyTableDisablesAutoReload(c: Config)
    requires c.Overlaid(map[], MluaBool)
    ensures !c.autoReload && DefaultAutoReload
    ensures !c.IsDefault()
  {
    assert Get(map[], "auto_reload").None?;
  }

  /** As written, a `server` table without `auto_start` switches auto-start off. */
  lemma ServerTableDisablesAutoStart(t: LuaTable)
    requires "auto_start" !in t
    ensures !ServerOf(t, MluaBool).autoStart && DefaultServer.autoStart
  {
  }

  /** With the intended reading, a `server` table without `auto_start` keeps it on. */
  lemma ServerTableKeepsAutoStart(t: LuaTable)
    requires "auto_start" !in t
    ensures ServerOf(t, StrictBool).autoStart == DefaultServer.autoStart
  {
  }

  /** A `keymaps` table overlays the defaults: each of the eight entries that the
      table leaves out keeps its default, and each that it gives as a string
      replaces it. */
  lemma KeymapsOverlay(t: LuaTable)
    ensures "chat" !in t ==> KeymapsOf(t).chat == DefaultKeymaps.chat
    ensures "chat" in t && t["chat"].LString? ==> KeymapsOf(t).chat == Some(t["chat"].s)
    ensures "edit" !in t ==> KeymapsOf(t).edit == DefaultKeymaps.edit
    ensures "edit" in t && t["edit"].LString? ==> KeymapsOf(t).edit == Some(t["edit"].s)
    ensures "explain" !in t ==> KeymapsOf(t).explain == DefaultKeymaps.explain
    ensures "explain" in t && t["explain"].LString? ==> KeymapsOf(t).explain == Some(t["explain"].s)
    ensures "create" !in t ==> KeymapsOf(t).create == DefaultKeymaps.create
    ensures "create" in t && t["create"].LString? ==> KeymapsOf(t).create == Some(t["create"].s)
    ensures "analyze" !in t ==> KeymapsOf(t).analyze == DefaultKeymaps.analyze
    ensures "analyze" in t && t["analyze"].LString? ==> KeymapsOf(t).analyze == Some(t["analyze"].s)
    ensures "models" !in t ==> KeymapsOf(t).models == DefaultKeymaps.models
    ensures "models" in t && t["models"].LString? ==> KeymapsOf(t).models == Some(t["models"].s)
    ensures "tasks" !in t ==> KeymapsOf(t).tasks == DefaultKeymaps.tasks
    ensures "tasks" in t && t["tasks"].LString? ==> KeymapsOf(t).tasks == Some(t["tasks"].s)
    ensures "chat_stream" !in t ==> KeymapsOf(t).chatStream == DefaultKeymaps.chatStream
    ensures "chat_stream" in t && t["chat_stream"].LString? ==> KeymapsOf(t).chatStream == Some(t["chat_stream"].s)
  {
  }
}
