/** The optional value used for parse results and for actions that cannot run. */
module Wrappers {

  datatype Option<+T> = None | Some(value: T)

}
