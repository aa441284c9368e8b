/** Errors raised by the webshop's operations, and the values that carry them. */
module Results {

  /** The tables whose `get_by_id` can fail; each has its own `DoesNotExist` exception. */
  datatype Table = UserTable | ProductTable | TagTable

  datatype Error =
    | DoesNotExist(table: Table)       // `Model.get_by_id` on an id that is not in the table
    | IntegrityError(table: Table)     // an insert that violates a `unique=True` column
    | NotEnoughStock                   // purchase of more than the product's stock
    | EmptyNameOrDescription           // validation: a required text field is empty
    | NegativePriceOrQuantity          // validation: a negative number
    | Overflow                         // an integer outside SQLite's signed 64-bit range is written

  /** The return value of an operation that produces something, or the exception it raises. */
  datatype Result<+T> = Ok(value: T) | Err(error: Error)

  /** The return value of an operation that returns `None`, or the exception it raises. */
  datatype Outcome = Pass | Fail(error: Error)
}
