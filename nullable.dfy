/** JavaScript's "`null` or a value", as the page's state variables hold it. */
module Nullable {

  datatype Option<+T> = None | Some(value: T)
}
