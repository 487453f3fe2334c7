/**
 * The two conditional statements of the generated script: registering
 * extra content origins and priming the static cache. Each builder yields
 * either the empty string or exactly one statement.
 */
module Statements {
  import opened JsValues
  import opened Errors
  import opened Format

  const AddOriginsOpen := "self.addOrigins(["
  const StaticCacheOpen := "self.staticCache(["
  const StatementClose := "]);"

  /** `makeAddOrigins`: nothing for no origins, else one `self.addOrigins` statement. */
  function MakeAddOrigins(origins: seq<JsValue>, stringify: JsValue -> string): (r: string)
    ensures r == "" <==> origins == []
  {
    if |origins| == 0 then ""
    else AddOriginsOpen + FormatJSONArray(origins, stringify) + StatementClose
  }

  /**
   * A non-empty origin list gives a statement whose array literal is the
   * JSON formatting of the origins, in their order.
   */
  lemma AddOriginsStatement(origins: seq<JsValue>, stringify: JsValue -> string)
    requires origins != []
    ensures var r := MakeAddOrigins(origins, stringify);
      && r[..|AddOriginsOpen|] == AddOriginsOpen
      && r[|r| - |StatementClose|..] == StatementClose
      && r[|AddOriginsOpen|..|r| - |StatementClose|] == FormatJSONArray(origins, stringify)
  {
  }

  /**
   * `makeCacheStatements`. Destructuring `static` out of null or undefined
   * raises a TypeError. When `static` is falsy or has a falsy `length` there
   * is no statement. Otherwise the string formatter calls `array.join` on
   * it, which only an array has.
   */
  function MakeCacheStatements(cache: JsValue): (r: Result<string>)
    ensures cache.Undefined? || cache.Null? ==> r.Err?
    ensures r == Ok("") <==>
      && !cache.Undefined? && !cache.Null?
      && (!Truthy(Field(cache, "static")) || !Truthy(LengthOf(Field(cache, "static"))))
  {
    if cache.Undefined? || cache.Null? then
      Err(TypeError("Cannot destructure property 'static' of 'cache' as it is " +
                    (if cache.Null? then "null." else "undefined.")))
    else
      var staticList := Field(cache, "static");
      if !(Truthy(staticList) && Truthy(LengthOf(staticList))) then Ok("")
      else if staticList.Arr? then
        Ok(StaticCacheOpen + FormatJSStringArray(JoinTexts(staticList.items)) + StatementClose)
      else Err(TypeError("array.join is not a function"))
  }

  /**
   * For a cache whose `static` is an array, the statement is missing
   * exactly when the array is empty, and otherwise lists the elements'
   * texts, each between double quotes, in their order.
   */
  lemma CacheStatementForArray(cache: JsValue, items: seq<JsValue>)
    requires cache.Obj? && "static" in cache.fields && cache.fields["static"] == Arr(items)
    ensures MakeCacheStatements(cache) == Ok("") <==> items == []
    ensures items != [] ==>
      MakeCacheStatements(cache)
      == Ok(StaticCacheOpen + Text.Join(QuoteAll(JoinTexts(items)), Separator) + StatementClose)
  {
    if items != [] {
      FormatJSStringArrayQuotesEach(JoinTexts(items));
    }
  }

  /** A cache without a `static` entry primes nothing. */
  lemma CacheStatementWithoutStatic(cache: JsValue)
    requires cache.Obj? && ("static" !in cache.fields || cache.fields["static"].Undefined?)
    ensures MakeCacheStatements(cache) == Ok("")
  {
  }

  /**
   * A `static` that is not an array but has a truthy length (a non-empty
   * string, say) makes the builder fail rather than emit anything.
   */
  lemma CacheStatementRejectsNonArray(cache: JsValue)
    requires cache.Obj? && "static" in cache.fields
    requires var entry := cache.fields["static"];
      !entry.Arr? && !entry.Undefined? && !entry.Null? && Truthy(entry) && Truthy(LengthOf(entry))
    ensures MakeCacheStatements(cache).Err?
  {
  }
}
