/** Small shared datatypes, and decimal notation. */
module Common {

  datatype Option<+T> = None | Some(value: T)

  /** A result of an operation that raises ValueError in the orchestrator. */
  datatype Result<+T> = Ok(value: T) | ValueError

  function Decimal(n: nat): string {
    if n < 10 then [Digit(n)] else Decimal(n / 10) + [Digit(n % 10)]
  }

  function Digit(d: nat): char
    requires d < 10
  {
    '0' + d as char
  }
}
