/** The optional value returned by the marching-cubes baker for one chunk. */
module Wrappers {

  datatype Option<+T> = None | Some(value: T)
}
