/** Failure-compatible wrappers shared by the resolvers.

    The Python resolvers never return an error value: a bad name raises
    `KeyError`, a missing or mistyped parameter raises `TypeError` inside
    the arithmetic, a zero Varshni denominator raises `ZeroDivisionError`.
    Here each of those is an `Err` carrying one `Error`.
 */
module Results {

  /** Why a query failed. */
  datatype Error =
    | UnknownMaterial(name: string)   // pure name absent from the pure table (KeyError)
    | UnknownAlloy(name: string)      // alloy name absent from the alloy table (KeyError)
    | MissingParameter(key: string)   // neither override nor record has the key (None in arithmetic)
    | WrongKind(key: string)          // a tuple where a number is used, or a number where a tuple is indexed
    | EmptyTuple(key: string)         // a tuple override with no first component (IndexError)
    | DivisionByZero                  // Varshni with temp + beta == 0 (ZeroDivisionError)

  /** Python's `None`-or-value, as returned by `dict.get`. */
  datatype Option<+T> = None | Some(value: T)

  /** Either the computed value or the failure that stopped the query. */
  datatype Result<+T> = Ok(value: T) | Err(error: Error) {

    predicate IsFailure() {
      Err?
    }

    function PropagateFailure<U>(): Result<U>
      requires Err?
    {
      Err(error)
    }

    function Extract(): T
      requires Ok?
    {
      value
    }
  }
}
