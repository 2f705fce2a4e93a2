/** The error returns shared by every domain operation of the hub, and the lesser and greater of two numbers. */
module Results {

  /** The exceptions a domain operation raises; `Integrity` is the database refusing a CHECK constraint. */
  datatype Error = NotFound | Conflict | Validation | Integrity

  datatype Result<+T> = Ok(value: T) | Err(error: Error)

  datatype Option<+T> = None | Some(value: T)

  function Min(a: int, b: int): int {
    if a <= b then a else b
  }

  function Max(a: int, b: int): int {
    if a >= b then a else b
  }
}
