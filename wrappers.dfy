/** The nullable values of the screens (`Child | null`, `string | null`) as an explicit option type. */
module Wrappers {

  datatype Option<+T> = None | Some(value: T)
}
