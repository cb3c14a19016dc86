/** An optional value, used for parse results that may fail. */
module Opt {

  datatype Option<T> = None | Some(value: T)

}
