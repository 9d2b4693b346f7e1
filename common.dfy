/** Scalar types shared by the two record kinds, and the outcome of a store operation. */
module Common {

  /** A UUID (`uuid.UUID`). Only equality between identifiers matters to the store. */
  type Uuid = nat

  /** A UTC instant as read from the clock (`datetime`). */
  type Timestamp = int

  /** A calendar date (`datetime.date`), as a day number; calendar parsing is not modelled. */
  type Date = int

  /** A website (`AnyUrl`); URL well-formedness is not modelled. */
  type Url = string

  datatype Option<+T> = None | Some(value: T) {
    /** The value if present, else `default`. */
    function GetOr(default: T): T { if Some? then value else default }

    /** This option if present, else `other`: how a set field wins over a stored one. */
    function Or(other: Option<T>): Option<T> { if Some? then this else other }
  }

  /** The HTTP errors the handlers raise. */
  datatype Error =
    | NotFound                 // 404 "Company not found" / "Employee not found": the id in the path
    | UnknownCompany(id: Uuid) // 404 "Company {id} not found": an id listed in `company_ids`
    | Conflict                 // 400 "... with this ID already exists"
    | Invalid                  // 422: the request body does not validate against its schema

  datatype Result<+T> = Ok(value: T) | Err(error: Error) {
    predicate IsFailure() { Err? }
    function PropagateFailure<U>(): Result<U> requires Err? { Err(error) }
    function Extract(): T requires Ok? { value }
  }
}
