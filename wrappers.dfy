/** An optional value: the absent case stands for Python's None or for an exception. */
module Wrappers {

  datatype Option<+T> = None | Some(value: T)

}
