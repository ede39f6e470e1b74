/** Optional values. `None` stands for a JSON field or header that is absent (`undefined`). */
module Wrappers {

  datatype Option<+T> = None | Some(value: T)
}
