/** The optional value shared by every module: a `getItem` that found
    nothing, a property access that threw, a lookup that matched nothing. */
module Wrappers {

  datatype Option<+T> = None | Some(value: T)
}
