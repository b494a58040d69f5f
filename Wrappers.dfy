/** Optional values: `None` stands for "no such room" where the game shows a wall. */
module Wrappers {
  datatype Option<+T> = None | Some(value: T)
}
