/** The optional value used wherever the source reads something that may be
    missing (a storage key that was never set, an absent response field). */
module Wrappers {

  datatype Option<+T> = None | Some(value: T)

}
