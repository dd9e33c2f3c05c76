/** Optional values and results shared by every module. */
module Common {

  // A nullable column, or a request field that may be empty.
  datatype Option<+T> = None | Some(value: T)

  // The errors a store operation can return.
  // NotFound is the driver's "no rows"; Constraint is any database constraint
  // violation that the store passes on unmapped.
  datatype Error =
    | NotFound
    | Occupied
    | DrumOccupied
    | InvalidMoveTarget
    | NotTurnable
    | Constraint

  datatype Result<+T> = Ok(value: T) | Err(error: Error)
}
