/**
 * Service-worker generation: from the `serviceWorker` section of a loaded
 * manifest to the text of the script. The section's fields are defaulted,
 * `origins` and `plugins` must be arrays, and the script is a header
 * comment, one `self.importScripts` statement, and the origin and cache
 * statements (each possibly empty), one per line.
 */
module MakeSW {
  import opened JsValues
  import opened Errors
  import opened Format
  import opened Plugins
  import opened Statements

  /** What the generator takes from its surroundings rather than from the manifest. */
  datatype Env = Env(
    /** The plugin-name to URL-builder registry. */
    registry: Registry,
    /** The service-worker version used when the manifest gives none. */
    currentVersion: JsValue,
    /** JSON encoding of one element, as the text `join` then gives it. */
    stringify: JsValue -> string)

  /** The section after defaulting: every field is present. */
  datatype Settings = Settings(
    version: JsValue,
    origin: JsValue,
    origins: JsValue,
    plugins: JsValue,
    cache: JsValue)

  /** How one generation ends: a script, no service-worker section, or an error. */
  datatype Outcome = Generated(code: string) | Absent | Failed(error: Failure)

  const DefaultOrigin := Str(".")
  const DefaultCache := Obj(map["static" := Arr([])])

  /**
   * The destructuring with defaults of the section. A default replaces an
   * `undefined` field only; the default origin list holds the origin after
   * its own defaulting.
   */
  function ApplyDefaults(sw: JsValue, currentVersion: JsValue): (c: Settings)
    requires Truthy(sw)
    ensures c.version == if Field(sw, "version").Undefined? then currentVersion else Field(sw, "version")
    ensures c.origin == if Field(sw, "origin").Undefined? then DefaultOrigin else Field(sw, "origin")
    ensures c.origins == if Field(sw, "origins").Undefined? then Arr([c.origin]) else Field(sw, "origins")
    ensures c.plugins == if Field(sw, "plugins").Undefined? then Arr([]) else Field(sw, "plugins")
    ensures c.cache == if Field(sw, "cache").Undefined? then DefaultCache else Field(sw, "cache")
  {
    var origin := Default(Field(sw, "origin"), DefaultOrigin);
    Settings(
      Default(Field(sw, "version"), currentVersion),
      origin,
      Default(Field(sw, "origins"), Arr([origin])),
      Default(Field(sw, "plugins"), Arr([])),
      Default(Field(sw, "cache"), DefaultCache))
  }

  /** The first line of the script, with the generation time. */
  function Header(timestamp: string): (r: string)
  {
    "// Auto-generated by Locomote.sh / " + timestamp + "\n"
  }

  /** The lines after the header: the imports, then the origin and cache statements. */
  function Body(imports: string, origins: string, cache: string): (r: string)
  {
    "self.importScripts(" + imports + ");\n" + origins + "\n" + cache + "\n"
  }

  /** The script template: one line per part, each ending in a newline. */
  function Script(timestamp: string, imports: string, origins: string, cache: string): (r: string)
  {
    Header(timestamp) + Body(imports, origins, cache)
  }

  /**
   * The whole generation for a loaded section `sw`, and the specification
   * of `Make`. The import list is resolved before the cache statement is
   * built, so a bad plugin is reported ahead of a bad cache.
   */
  function Generate(sw: JsValue, env: Env, timestamp: string): (r: Outcome)
    ensures r.Absent? <==> !Truthy(sw)
    ensures r.Generated? ==>
      && ApplyDefaults(sw, env.currentVersion).origins.Arr?
      && ApplyDefaults(sw, env.currentVersion).plugins.Arr?
      && RuntimeName in env.registry
  {
    if !Truthy(sw) then Absent
    else
      var c := ApplyDefaults(sw, env.currentVersion);
      if !c.origins.Arr? then Failed(NotAnArray("origins"))
      else if !c.plugins.Arr? then Failed(NotAnArray("plugins"))
      else
        match Imports(c.plugins.items, c.version, env.registry)
        case Err(e) => Failed(e)
        case Ok(imports) =>
          var origins := MakeAddOrigins(c.origins.items, env.stringify);
          match MakeCacheStatements(c.cache)
          case Err(e) => Failed(e)
          case Ok(cache) => Generated(Script(timestamp, imports, origins, cache))
  }

  /**
   * `make`, from the loaded section on, proved equal to its specification
   * `Generate`: the plugin list is an object that import generation changes
   * in place, as the manifest's array is.
   */
  method Make(sw: JsValue, env: Env, timestamp: string) returns (r: Outcome)
    ensures r == Generate(sw, env, timestamp)
  {
    if !Truthy(sw) {
      return Absent;
    }
    var c := ApplyDefaults(sw, env.currentVersion);
    if !c.origins.Arr? {
      return Failed(NotAnArray("origins"));
    }
    if !c.plugins.Arr? {
      return Failed(NotAnArray("plugins"));
    }
    var plugins := new PluginList(c.plugins.items);
    var imports := plugins.MakeImports(c.version, env.registry);
    if imports.Err? {
      return Failed(imports.error);
    }
    var origins := MakeAddOrigins(c.origins.items, env.stringify);
    var cache := MakeCacheStatements(c.cache);
    if cache.Err? {
      return Failed(cache.error);
    }
    r := Generated(Script(timestamp, imports.value, origins, cache.value));
  }

  /**
   * Validation: once the section is present, a non-array `origins` (after
   * defaulting) fails first, then a non-array `plugins`, each with its own
   * message.
   */
  lemma RejectsNonArrays(sw: JsValue, env: Env, timestamp: string)
    requires Truthy(sw)
    ensures !ApplyDefaults(sw, env.currentVersion).origins.Arr? ==>
      Generate(sw, env, timestamp) == Failed(NotAnArray("origins"))
    ensures ApplyDefaults(sw, env.currentVersion).origins.Arr? &&
            !ApplyDefaults(sw, env.currentVersion).plugins.Arr? ==>
      Generate(sw, env, timestamp) == Failed(NotAnArray("plugins"))
  {
  }

  /** An explicit `null` is not defaulted: `origins: null` fails validation. */
  lemma NullOriginsRejected(fields: map<string, JsValue>, env: Env, timestamp: string)
    requires "origins" in fields && fields["origins"] == Null
    ensures Generate(Obj(fields), env, timestamp) == Failed(NotAnArray("origins"))
  {
  }

  /**
   * Defaulting: a section with none of `origin`, `origins`, `plugins` and
   * `cache` imports only the runtime, registers the single origin `.`, and
   * primes no cache.
   */
  lemma DefaultScript(fields: map<string, JsValue>, env: Env, timestamp: string)
    requires forall name :: name in ["origin", "origins", "plugins", "cache"] ==> name !in fields
    requires RuntimeName in env.registry
    ensures var version := Default(Field(Obj(fields), "version"), env.currentVersion);
      Generate(Obj(fields), env, timestamp) == Generated(Script(timestamp,
        Quote(env.registry[RuntimeName](version)),
        "self.addOrigins([" + env.stringify(DefaultOrigin) + "]);",
        ""))
  {
    var sw := Obj(fields);
    var c := ApplyDefaults(sw, env.currentVersion);
    assert c.plugins == Arr([]) && c.origins == Arr([DefaultOrigin]) && c.cache == DefaultCache;
    var url := env.registry[RuntimeName](c.version);
    assert !(SecureScheme <= RuntimeName) by { assert |RuntimeName| < |SecureScheme|; }
    var refs := [Str(RuntimeName)];
    assert ResolveRef(refs[0], c.version, env.registry) == Ok(url);
    assert ResolveAll(refs[1..], c.version, env.registry) == Ok([]);
    assert [url] + [] == [url];
    assert ResolveAll(refs, c.version, env.registry) == Ok([url]);
    assert [Str(RuntimeName)] + c.plugins.items == [Str(RuntimeName)];
    assert Imports(c.plugins.items, c.version, env.registry) == Ok(Quote(url));
    FormatJSONArraySingle(DefaultOrigin, env.stringify);
    assert MakeCacheStatements(c.cache) == Ok("");
  }

  /**
   * Origin defaulting on any section: without an `origins` field, a
   * generated script registers exactly the (defaulted) `origin`.
   */
  lemma DefaultOrigins(sw: JsValue, env: Env, timestamp: string)
    requires Truthy(sw) && Field(sw, "origins").Undefined?
    requires Generate(sw, env, timestamp).Generated?
    ensures var c := ApplyDefaults(sw, env.currentVersion);
      MakeAddOrigins(c.origins.items, env.stringify) == "self.addOrigins([" + env.stringify(c.origin) + "]);"
  {
    var c := ApplyDefaults(sw, env.currentVersion);
    FormatJSONArraySingle(c.origin, env.stringify);
  }

  /**
   * With no registry entry for the runtime, every well-formed section fails
   * on the runtime's own name, even one with no plugins.
   */
  lemma EmptyRegistryFails(sw: JsValue, env: Env, timestamp: string)
    requires Truthy(sw) && RuntimeName !in env.registry
    requires ApplyDefaults(sw, env.currentVersion).origins.Arr?
    requires ApplyDefaults(sw, env.currentVersion).plugins.Arr?
    ensures Generate(sw, env, timestamp) == Failed(BadPluginName(RuntimeName))
  {
    var c := ApplyDefaults(sw, env.currentVersion);
    ImportsNeedRuntime(c.plugins.items, c.version, env.registry);
  }

  /**
   * An unknown plugin name, after the runtime and every earlier plugin
   * resolved, makes the whole generation fail with an error naming it; no
   * script text is produced.
   */
  lemma UnknownPluginFails(sw: JsValue, env: Env, timestamp: string, k: nat)
    requires Truthy(sw) && RuntimeName in env.registry
    requires ApplyDefaults(sw, env.currentVersion).origins.Arr?
    requires ApplyDefaults(sw, env.currentVersion).plugins.Arr?
    requires var c := ApplyDefaults(sw, env.currentVersion);
      && k < |c.plugins.items|
      && (forall j :: 0 <= j < k ==> ResolveRef(c.plugins.items[j], c.version, env.registry).Ok?)
      && c.plugins.items[k].Str?
      && !(SecureScheme <= c.plugins.items[k].s)
      && c.plugins.items[k].s !in env.registry
    ensures var name := ApplyDefaults(sw, env.currentVersion).plugins.items[k].s;
      && Generate(sw, env, timestamp) == Failed(BadPluginName(name))
      && Message(BadPluginName(name)) == "Bad plugin name: " + name
  {
    var c := ApplyDefaults(sw, env.currentVersion);
    ImportsFailAt(c.plugins.items, k, c.version, env.registry);
  }

  /**
   * A generated script is the header, the import statement over the
   * resolved URLs (runtime first, then each plugin's URL in order), the
   * origin statement and the cache statement.
   */
  lemma GeneratedShape(sw: JsValue, env: Env, timestamp: string)
    requires Generate(sw, env, timestamp).Generated?
    ensures var c := ApplyDefaults(sw, env.currentVersion);
      var refs := [Str(RuntimeName)] + c.plugins.items;
      && ResolveAll(refs, c.version, env.registry).Ok?
      && var urls := ResolveAll(refs, c.version, env.registry).value;
      && |urls| == |c.plugins.items| + 1
      && urls[0] == env.registry[RuntimeName](c.version)
      && MakeCacheStatements(c.cache).Ok?
      && Generate(sw, env, timestamp).code == Script(timestamp,
           FormatJSStringArray(urls),
           MakeAddOrigins(c.origins.items, env.stringify),
           MakeCacheStatements(c.cache).value)
  {
    var c := ApplyDefaults(sw, env.currentVersion);
    ImportsShape(c.plugins.items, c.version, env.registry);
  }

  /**
   * Generation is deterministic up to the clock: two runs on the same
   * section succeed or fail together, and their scripts agree after the
   * header line.
   */
  lemma OnlyTimestampVaries(sw: JsValue, env: Env, t1: string, t2: string)
    ensures Generate(sw, env, t1).Generated? <==> Generate(sw, env, t2).Generated?
    ensures !Generate(sw, env, t1).Generated? ==> Generate(sw, env, t1) == Generate(sw, env, t2)
    ensures Generate(sw, env, t1).Generated? ==>
      && |Header(t1)| <= |Generate(sw, env, t1).code|
      && |Header(t2)| <= |Generate(sw, env, t2).code|
      && Generate(sw, env, t1).code[|Header(t1)|..] == Generate(sw, env, t2).code[|Header(t2)|..]
  {
    if Truthy(sw) {
      var c := ApplyDefaults(sw, env.currentVersion);
      if c.origins.Arr? && c.plugins.Arr? {
        var imports := Imports(c.plugins.items, c.version, env.registry);
        var cache := MakeCacheStatements(c.cache);
        if imports.Ok? && cache.Ok? {
          var origins := MakeAddOrigins(c.origins.items, env.stringify);
          var body := Body(imports.value, origins, cache.value);
          assert Generate(sw, env, t1).code == Header(t1) + body;
          assert Generate(sw, env, t2).code == Header(t2) + body;
        }
      }
    }
  }
}
