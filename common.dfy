/** Values shared by the whole model: optional values and the failures the
    backend handlers signal by throwing. */
module Common {

  /** A possibly absent value (a JavaScript `undefined` / `null`). */
  datatype Option<+T> = None | Some(value: T) {
    function GetOr(default: T): T {
      match this
      case Some(v) => v
      case None => default
    }

    /** This value when present, otherwise `other`: how a patch field that
        is `undefined` leaves the stored field alone. */
    function OrElse(other: Option<T>): Option<T> {
      if Some? then this else other
    }
  }

  /** The errors the handlers throw. */
  datatype Error =
    | NoValidFieldsToUpdate   // a partial update that supplies no field
    | LeadNotFound            // convertLeadToClient on an id with no lead
    | NonexistentDocument     // the database refuses a patch or delete of a missing id
    | NotUnique               // `.unique()` found more than one row

  /** The outcome of a mutation that returns nothing. */
  datatype Outcome = Pass | Fail(error: Error)

  /** The outcome of a mutation that returns a value. */
  datatype Result<+T> = Ok(value: T) | Err(error: Error)
}
