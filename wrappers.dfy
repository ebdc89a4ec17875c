/** Optional values: the model's stand-in for a C# reference that may be null
    and for the nullable `bool?` argument of GameManager.Pause. */
module Wrappers {

  datatype Option<+T> = None | Some(value: T)
}
