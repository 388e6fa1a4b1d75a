/**
 * Failure-carrying datatypes shared by the whole model.
 *  - Option: a value that may be absent (JavaScript `undefined`/`null`).
 *  - Result: a synchronous call that returns or throws an Error with a message.
 *  - Settle: how a Promise ends up: still pending (never settles), resolved
 *    with a value, or rejected with a reason (already turned into text, as
 *    `error + ''` does in JavaScript).
 */
module Wrappers {

  datatype Option<+T> = None | Some(value: T)

  datatype Result<+T> = Ok(value: T) | Err(error: string)

  datatype Settle<+T> = Pending | Resolved(value: T) | Rejected(reason: string)
}
