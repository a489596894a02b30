/** The optional value used wherever the engine may answer "nothing": a raycast
    that hit nothing, or no object being held. */
module Wrappers {

  datatype Option<+T> = None | Some(value: T)
}
