# Service-worker generator model

This project models the generator in `lib/make-sw.js` of Locomote's web-manifest builder. The generator takes the `serviceWorker` section of a loaded manifest and produces the text of a browser service-worker script. The script has four parts:

- a header comment with the generation time;
- one `self.importScripts(...)` statement, which imports the service-worker runtime (`__sw`) and then every configured plugin, each resolved to a URL;
- an optional `self.addOrigins([...])` statement, which registers the content origins;
- an optional `self.staticCache([...])` statement, which primes the static cache.

Modules, leaf first:

- `Text`: `Array.prototype.join` on strings.
- `JsValues`: the JavaScript values a manifest holds (`JsValue`) and the language operations the generator relies on: truthiness, property reads, destructuring defaults (which replace `undefined` only), `length`, and the text `join` gives each element.
- `Errors`: the generator's errors, kept as values (`Result`), and the message each one logs.
- `Format`: the two array formatters.
- `Plugins`: plugin-reference resolution, plus the `PluginList` class. Its `MakeImports` puts `__sw` in front of the configured list in place, then resolves the whole list.
- `Statements`: the origin and cache statement builders.
- `MakeSW`: the defaulting of the section (`ApplyDefaults`), the whole generation as a function (`Generate`), and `Make`, the procedure proved equal to it.

The surroundings are parameters (`MakeSW.Env`):
- the plugin registry, a `map<string, JsValue -> string>` from plugin name to URL builder;
- the version used when the manifest gives none;
- the JSON encoding of one element.

The clock reading is a `timestamp` string. The swallow-all `try/catch` becomes an `Outcome`: `Generated(code)`, `Absent` when there is no service-worker section, or `Failed(error)`. `Errors.Message` gives the text that would have been logged.

Some edge cases are decided by the code, and the model follows it:
- The runtime name `__sw` is itself looked up in the registry. With an empty registry even a configuration with no plugins fails, with `Bad plugin name: __sw` (`MakeSW.EmptyRegistryFails`). It does not produce a script that imports only the runtime.
- Defaults replace `undefined` only. `origins: null` is kept and fails the array check (`MakeSW.NullOriginsRejected`).
- A `cache` of `null` makes the destructuring of `static` raise a TypeError. A `static` that is truthy with a truthy `length` but is not an array (a non-empty string, say) raises a TypeError when joined.

## Model

| member | source | states |
|---|---|---|
| `Text.JoinLength` | lib/make-sw.js:127-134 | joining n >= 1 strings gives all their characters plus n - 1 separators; joining none gives the empty string |
| `Text.JoinAppend` | lib/make-sw.js:127-134 | joining a concatenation of two non-empty lists puts exactly one separator between the two joins |
| `JsValues.Digits` | lib/make-sw.js:128 | the decimal text of a natural number is a non-empty run of digits that denotes the number, with no leading zero and one digit exactly below ten; for integers below 2^53 this is `join`'s text of the number |
| `JsValues.Decimal` | lib/make-sw.js:128 | the text of an integer is a minus sign exactly when it is negative, followed by the digits of its magnitude, which denote that magnitude |
| `Errors.Message` | lib/make-sw.js:59-100 | the array-check message names the setting (lines 59-64); the bad-plugin message ends with the offending name (line 100) |
| `Format.FormatJSStringArrayQuotesEach` | lib/make-sw.js:127-129 | on a non-empty list the string formatter double-quotes each element and separates them with `,\n\t` |
| `Format.FormatJSStringArrayLength` | lib/make-sw.js:127-129 | the output length for n >= 1 strings is their total length + 2 + 5(n - 1); the empty list gives the two-character text `""` |
| `Format.FormatJSStringArrayAmbiguous` | lib/make-sw.js:127-129 | no escaping: for all strings a and b, the one element a + `",\n\t"` + b formats exactly like the two elements a and b |
| `Format.FormatJSONArrayAppend` | lib/make-sw.js:132-134 | the JSON formatter of a concatenation is the two formatted parts joined by one `,\n\t` |
| `Format.FormatJSONArraySingle` | lib/make-sw.js:132-134 | the JSON formatter of one element is that element's encoding |
| `Format.FormatJSONArrayLength` | lib/make-sw.js:132-134 | the output length for n >= 1 elements is the encodings' total length + 3(n - 1); the empty list gives the empty string |
| `Plugins.ResolveRefCases` | lib/make-sw.js:90-104 | a string reference starting with `https:` resolves to itself, a registered name to its builder's URL for the version, anything else to an error naming it |
| `Plugins.ResolveAllOk` | lib/make-sw.js:90-105 | resolution succeeds exactly when every reference resolves, and then gives one URL per reference at the same index |
| `Plugins.ResolveAllFirstError` | lib/make-sw.js:90-105 | all or nothing: the first failing reference's error is the error of the whole resolution, with no partial list |
| `Plugins.ImportsShape` | lib/make-sw.js:86-107 | a successful import list has one URL more than there are plugins: the registry's `__sw` URL first, then each plugin's URL shifted up by one |
| `Plugins.ImportsNeedRuntime` | lib/make-sw.js:88-101 | without a registry entry for `__sw`, import generation fails with `BadPluginName("__sw")` |
| `Plugins.ImportsFailAt` | lib/make-sw.js:88-105 | the first plugin that fails to resolve, after `__sw`, fails the whole import list with its own error |
| `Plugins.PluginList.MakeImports` | lib/make-sw.js:86-107 | the list afterwards is `__sw` followed by the old list, whether or not resolution succeeds; the result is the formatted import list or the first resolution error |
| `Statements.MakeAddOrigins` | lib/make-sw.js:110-115 | the origin statement is empty exactly when there are no origins |
| `Statements.AddOriginsStatement` | lib/make-sw.js:110-115 | a non-empty origin list gives `self.addOrigins([`, then the JSON formatting of the origins, then `]);` |
| `Statements.MakeCacheStatements` | lib/make-sw.js:118-124 | a null or undefined cache is an error; the statement is empty exactly when `static` is falsy or has a falsy length |
| `Statements.CacheStatementForArray` | lib/make-sw.js:118-124 | for an array `static`, no statement exactly when it is empty; otherwise `self.staticCache([` with each element's text quoted, separated by `,\n\t`, then `]);` |
| `Statements.CacheStatementWithoutStatic` | lib/make-sw.js:119-122 | a cache with no `static` entry gives no statement |
| `Statements.CacheStatementRejectsNonArray` | lib/make-sw.js:119-123 | a truthy non-array `static` with a truthy length fails instead of producing a statement |
| `MakeSW.ApplyDefaults` | lib/make-sw.js:51-57 | each absent field takes its default: the current version, origin `.`, origins `[origin]`, plugins `[]`, cache `{static: []}`; present fields are kept |
| `MakeSW.Generate` | lib/make-sw.js:39-83 | the result is `Absent` exactly when the section is falsy; a generated script implies array `origins` and `plugins` and a registered `__sw` |
| `MakeSW.Make` | lib/make-sw.js:39-83 | the procedure, with its in-place import generation, yields exactly the outcome `Generate` specifies |
| `MakeSW.RejectsNonArrays` | lib/make-sw.js:59-64 | a non-array `origins` fails first, then a non-array `plugins`; no script is produced |
| `MakeSW.NullOriginsRejected` | lib/make-sw.js:54-61 | an explicit `origins: null` is not defaulted and fails validation |
| `MakeSW.DefaultScript` | lib/make-sw.js:51-70 | a section with no origin, origins, plugins or cache imports only `__sw`, registers the single origin `.`, and has an empty cache line |
| `MakeSW.DefaultOrigins` | lib/make-sw.js:53-54 | on any generated section without `origins`, the origin statement registers exactly the defaulted `origin` |
| `MakeSW.EmptyRegistryFails` | lib/make-sw.js:86-101 | with `__sw` unregistered, every well-formed section fails on `__sw` |
| `MakeSW.UnknownPluginFails` | lib/make-sw.js:96-101 | an unregistered, non-`https:` plugin name fails the whole generation with an error whose message ends with that name |
| `MakeSW.GeneratedShape` | lib/make-sw.js:66-70 | a generated script is the header, the import statement over the resolved URLs (runtime first, then one per plugin), the origin line and the cache line |
| `MakeSW.OnlyTimestampVaries` | lib/make-sw.js:66-70 | two generations of the same section value succeed or fail together, and their scripts agree after the header line (each call receives that value afresh) |

## Left out

- Loading the manifest (`loadManifest`) is I/O. The model starts from the loaded `serviceWorker` value.
- Writing the script to `<target>/sw.js` when `save` is set is I/O. So are `Path.join` and the "Writing" log line.
- The clock: `new Date()` becomes the `timestamp` parameter.
- `console.error` diagnostics: the model returns the outcome instead, and `Errors.Message` gives the logged text.
- `async`/`await`: the model is sequential.
- `JSON.stringify` is a parameter, so the model does not check that the origin literal parses back as JSON. `map` also passes the index and the array to it; those are ignored as replacer and indentation arguments.
- The contents of the plugin registry and of the current-version constant live in another module that is not part of this model. Both are parameters.
- Registry lookup sees only the entries of the map. A name inherited from `Object.prototype`, such as `toString`, would be found by the JavaScript lookup but is not modelled.
- Numbers in manifest values are integers below 2^53 in magnitude. Above 2^53 JavaScript prints the fewest digits that identify the double, padded with zeros, which can differ from the exact integer that `JsValues.Decimal` writes. From 10^21 on it also uses exponent notation. Fractions, larger numbers, `NaN` and infinities are not modelled.
- Errors that a JavaScript object with getters, a `join` property or other exotic behaviour could raise are not modelled. Objects hold plain data only.
- TypeError messages follow V8's wording. Their exact text is engine-dependent.
- `Plugins.PluginList.MakeImports` mutates a model of the `plugins` array that is separate from the section value. Whether the caller can see the change is not modelled. The section comes from `loadManifest`, which is not modelled; the model assumes each call receives a fresh section, so the effect of the `unshift` at lib/make-sw.js:88 on a shared manifest (a second generation importing `__sw` twice) is not captured.
