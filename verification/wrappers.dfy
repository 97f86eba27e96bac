/** The usual optional value: `None` stands for a JavaScript `undefined` or `null`. */
module Wrappers {

  datatype Option<+T> = None | Some(value: T)

  /** What a call into JavaScript code does: return a value, or throw (or reject, for an awaited call). */
  datatype Completion<+T> = Returned(value: T) | Threw
}
