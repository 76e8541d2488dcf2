// The two-way results that Go returns as a value with an ok flag or an error.

module Wrappers {

  datatype Option<+T> = None | Some(value: T)
}
