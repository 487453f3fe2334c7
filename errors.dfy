/** The errors the generator raises, and the result type that carries them instead of exceptions. */
module Errors {

  datatype Failure =
    /** A setting that must be an array is not one; `setting` is `origins` or `plugins`. */
    | NotAnArray(setting: string)
    /** A plugin reference that is neither an `https:` URL nor a registered name. */
    | BadPluginName(name: string)
    /** A JavaScript TypeError raised by the runtime; `detail` follows V8's wording. */
    | TypeError(detail: string)

  datatype Result<T> = Ok(value: T) | Err(error: Failure)

  /** The `message` of the thrown error, which is what the generator logs. */
  function Message(f: Failure): (m: string)
    ensures f.NotAnArray? ==> m == "Setting 'serviceWorker." + f.setting + "' must be an array"
    ensures f.BadPluginName? ==> |f.name| < |m| && m[|m| - |f.name|..] == f.name
  {
    match f
    case NotAnArray(setting) => "Setting 'serviceWorker." + setting + "' must be an array"
    case BadPluginName(name) => "Bad plugin name: " + name
    case TypeError(detail) => detail
  }
}
