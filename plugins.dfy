/**
 * Plugin resolution: the list of script imports. The runtime's own script
 * is put in front of the configured plugin references, in place, and every
 * reference is then turned into a URL, either as it stands (an `https:`
 * URL) or through a registry of URL builders keyed by plugin name.
 */
module Plugins {
  import opened JsValues
  import opened Errors
  import Format

  /** The registry name of the service-worker runtime, always imported first. */
  const RuntimeName := "__sw"

  /** References starting with this are URLs and are used as they are. */
  const SecureScheme := "https:"

  /** Plugin name to URL builder; a builder takes the configured version. */
  type Registry = map<string, JsValue -> string>

  /**
   * The URL one reference resolves to. A string starting with `https:` is
   * its own URL; any other string must be a registry name. Anything that
   * is not a string has no `startsWith` and raises a TypeError.
   */
  function ResolveRef(ref: JsValue, version: JsValue, registry: Registry): (r: Result<string>)
  {
    match ref
    case Str(s) =>
      if SecureScheme <= s then Ok(s)
      else if s in registry then Ok(registry[s](version))
      else Err(BadPluginName(s))
    case Undefined => Err(TypeError("Cannot read properties of undefined (reading 'startsWith')"))
    case Null => Err(TypeError("Cannot read properties of null (reading 'startsWith')"))
    case _ => Err(TypeError("ref.startsWith is not a function"))
  }

  /**
   * Every string reference resolves in exactly one of three ways: unchanged
   * when it starts with `https:`, through its registry builder when it is a
   * registered name, and otherwise to an error that names it.
   */
  lemma ResolveRefCases(s: string, version: JsValue, registry: Registry)
    ensures var r := ResolveRef(Str(s), version, registry);
      && (SecureScheme <= s ==> r == Ok(s))
      && (!(SecureScheme <= s) && s in registry ==> r == Ok(registry[s](version)))
      && (!(SecureScheme <= s) && s !in registry ==> r == Err(BadPluginName(s)))
  {
  }

  /** `refs.map(...)`: the URLs in order, or the error of the first reference that fails. */
  function ResolveAll(refs: seq<JsValue>, version: JsValue, registry: Registry): (r: Result<seq<string>>)
  {
    if refs == [] then Ok([])
    else
      match ResolveRef(refs[0], version, registry)
      case Err(e) => Err(e)
      case Ok(url) =>
        match ResolveAll(refs[1..], version, registry)
        case Err(e) => Err(e)
        case Ok(urls) => Ok([url] + urls)
  }

  /**
   * Resolution succeeds exactly when every reference resolves, and then
   * yields one URL per reference, in the order of the references.
   */
  lemma {:induction false} ResolveAllOk(refs: seq<JsValue>, version: JsValue, registry: Registry)
    ensures ResolveAll(refs, version, registry).Ok?
        <==> forall i :: 0 <= i < |refs| ==> ResolveRef(refs[i], version, registry).Ok?
    ensures ResolveAll(refs, version, registry).Ok? ==>
      var urls := ResolveAll(refs, version, registry).value;
      && |urls| == |refs|
      && forall i :: 0 <= i < |refs| ==> ResolveRef(refs[i], version, registry) == Ok(urls[i])
  {
    if refs != [] {
      ResolveAllOk(refs[1..], version, registry);
      if ResolveRef(refs[0], version, registry).Ok? && ResolveAll(refs[1..], version, registry).Ok? {
        var urls := ResolveAll(refs, version, registry).value;
        forall i | 0 <= i < |refs|
          ensures ResolveRef(refs[i], version, registry) == Ok(urls[i])
        {
          if i > 0 {
            assert refs[i] == refs[1..][i - 1];
          }
        }
      } else if ResolveRef(refs[0], version, registry).Ok? {
        var k :| 0 <= k < |refs[1..]| && !ResolveRef(refs[1..][k], version, registry).Ok?;
        assert refs[k + 1] == refs[1..][k];
      }
    }
  }

  /**
   * All or nothing: when the reference at `k` is the first that fails,
   * resolution fails with exactly that reference's error.
   */
  lemma {:induction false} ResolveAllFirstError(refs: seq<JsValue>, k: nat, version: JsValue, registry: Registry)
    requires k < |refs|
    requires forall j :: 0 <= j < k ==> ResolveRef(refs[j], version, registry).Ok?
    requires ResolveRef(refs[k], version, registry).Err?
    ensures ResolveAll(refs, version, registry) == Err(ResolveRef(refs[k], version, registry).error)
  {
    if k > 0 {
      assert refs[1..][k - 1] == refs[k];
      forall j | 0 <= j < k - 1
        ensures ResolveRef(refs[1..][j], version, registry).Ok?
      {
        assert refs[1..][j] == refs[j + 1];
      }
      ResolveAllFirstError(refs[1..], k - 1, version, registry);
      assert ResolveRef(refs[0], version, registry).Ok?;
    }
  }

  /**
   * The argument text of `self.importScripts(...)` for the configured
   * references: the specification of `PluginList.MakeImports`.
   */
  function Imports(plugins: seq<JsValue>, version: JsValue, registry: Registry): (r: Result<string>)
  {
    match ResolveAll([Str(RuntimeName)] + plugins, version, registry)
    case Err(e) => Err(e)
    case Ok(urls) => Ok(Format.FormatJSStringArray(urls))
  }

  /**
   * The import list has one URL more than there are plugins: the runtime's
   * URL from the registry first, then each plugin's URL at its own index
   * shifted by one.
   */
  lemma ImportsShape(plugins: seq<JsValue>, version: JsValue, registry: Registry)
    requires ResolveAll([Str(RuntimeName)] + plugins, version, registry).Ok?
    ensures var urls := ResolveAll([Str(RuntimeName)] + plugins, version, registry).value;
      && Imports(plugins, version, registry) == Ok(Format.FormatJSStringArray(urls))
      && |urls| == |plugins| + 1
      && RuntimeName in registry
      && urls[0] == registry[RuntimeName](version)
      && forall i :: 0 <= i < |plugins| ==> ResolveRef(plugins[i], version, registry) == Ok(urls[i + 1])
  {
    var refs := [Str(RuntimeName)] + plugins;
    ResolveAllOk(refs, version, registry);
    assert refs[0] == Str(RuntimeName);
    forall i | 0 <= i < |plugins|
      ensures ResolveRef(plugins[i], version, registry) == Ok(ResolveAll(refs, version, registry).value[i + 1])
    {
      assert refs[i + 1] == plugins[i];
    }
  }

  /** The runtime name must itself be registered: without it nothing resolves. */
  lemma ImportsNeedRuntime(plugins: seq<JsValue>, version: JsValue, registry: Registry)
    requires RuntimeName !in registry
    ensures Imports(plugins, version, registry) == Err(BadPluginName(RuntimeName))
  {
    ResolveAllFirstError([Str(RuntimeName)] + plugins, 0, version, registry);
  }

  /**
   * A plugin reference that fails, after the runtime and every earlier
   * plugin resolved, fails the whole import list with its own error.
   */
  lemma ImportsFailAt(plugins: seq<JsValue>, k: nat, version: JsValue, registry: Registry)
    requires RuntimeName in registry
    requires k < |plugins|
    requires forall j :: 0 <= j < k ==> ResolveRef(plugins[j], version, registry).Ok?
    requires ResolveRef(plugins[k], version, registry).Err?
    ensures Imports(plugins, version, registry) == Err(ResolveRef(plugins[k], version, registry).error)
  {
    var refs := [Str(RuntimeName)] + plugins;
    forall j | 0 <= j < k + 1
      ensures ResolveRef(refs[j], version, registry).Ok?
    {
      if j > 0 {
        assert refs[j] == plugins[j - 1];
      }
    }
    assert refs[k + 1] == plugins[k];
    ResolveAllFirstError(refs, k + 1, version, registry);
  }

  /** The `plugins` array of a configuration, which import generation changes in place. */
  class PluginList {
    var refs: seq<JsValue>

    constructor (refs: seq<JsValue>)
      ensures this.refs == refs
    {
      this.refs := refs;
    }

    /**
     * `makeImports`: puts the runtime name in front of the list (whether or
     * not resolution then succeeds) and resolves the whole list.
     */
    method MakeImports(version: JsValue, registry: Registry) returns (r: Result<string>)
      modifies this
      ensures refs == [Str(RuntimeName)] + old(refs)
      ensures r == Imports(old(refs), version, registry)
    {
      refs := [Str(RuntimeName)] + refs;
      var resolved := ResolveAll(refs, version, registry);
      if resolved.Err? {
        return Err(resolved.error);
      }
      r := Ok(Format.FormatJSStringArray(resolved.value));
    }
  }
}
