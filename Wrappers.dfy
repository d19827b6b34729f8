/** The optional value returned by the setting-identifier translators. */
module Wrappers {

  datatype Option<+T> = None | Some(value: T)
}
