/** Optional values and JavaScript completions shared by every module. */
module Wrappers {

  /** `None` stands for JavaScript `undefined` wherever a value may be absent. */
  datatype Option<+T> = None | Some(value: T)

  /** The completion of a JavaScript computation that can only fail by throwing a
      `TypeError` raised by the engine itself (reading a property of `null`, writing
      a property of a primitive in strict mode, calling a missing `map`). The
      engine's message text is not modelled. */
  datatype Result<+T> = Ok(value: T) | TypeError
}
