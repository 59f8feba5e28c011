/** Optional values and the error outcomes of the constellation aggregate.
    The Python code signals these failures by raising (KeyError for a
    missing star id, ValueError/IndexError/TypeError from numpy for an
    empty or malformed star set); here they are values. */
module Outcomes {

  /** Python's `None` versus a present value. */
  datatype Option<+T> = None | Some(value: T)

  /** Why an aggregate operation failed. */
  datatype Failure =
    | MissingStar(id: int)   // a star id looked up in the map is not a key
    | EmptyStarSet           // a min/max reduction over zero stars
    | NotProjected           // a position read before `project` ran
    | DistanceNotNumeric     // a blank ("") distance inside a numeric range

  datatype Result<+T> = Ok(value: T) | Err(failure: Failure)
}
