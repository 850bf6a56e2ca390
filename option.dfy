/** An optional value: JavaScript's `undefined`/`null` against a present value. */
module Opt {
  datatype Option<T> = None | Some(value: T)
}
