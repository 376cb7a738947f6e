/**
 The arithmetic module of the unit-testing exercise: four binary operations
 on numbers, of which only division can fail.

 Python integers are unbounded, so `int` models the operands exactly. The
 quotient of Python's `/` is a float; here it is the exact `real` quotient,
 so every statement about `Divide` holds without rounding.
 */
module Calculator {

  /** The exception kinds the module can raise: only `ValueError`, with its message. */
  datatype Error = ValueError(message: string)

  /** Either the value an operation returns or the exception it raises. */
  datatype Result<+T> = Success(value: T) | Failure(error: Error)

  /** The message `divide` raises with a zero divisor. */
  const DivideByZeroMessage: string := "Cannot divide by zero"

  function Add(x: int, y: int): int {
    x + y
  }

  function Subtract(x: int, y: int): int {
    x - y
  }

  function Multiply(x: int, y: int): int {
    x * y
  }

  /** Divides `x` by `y`; the zero test runs before the division, so no
      precondition is needed for the division to be well defined. The
      quotient is characterised by multiplication rather than by `/`. */
  function Divide(x: int, y: int): (r: Result<real>)
    ensures r.Failure? <==> y == 0
    ensures r.Failure? ==> r.error == ValueError(DivideByZeroMessage)
    ensures r.Success? ==> r.value * (y as real) == x as real
  {
    if y == 0 then
      Failure(ValueError(DivideByZeroMessage))
    else
      Success(x as real / y as real)
  }

  // Properties of addition

  lemma AddCommutative(x: int, y: int)
    ensures Add(x, y) == Add(y, x)
  {
  }

  lemma AddAssociative(x: int, y: int, z: int)
    ensures Add(Add(x, y), z) == Add(x, Add(y, z))
  {
  }

  lemma AddZeroIdentity(x: int)
    ensures Add(x, 0) == x && Add(0, x) == x
  {
  }

  // Properties of subtraction, the inverse of addition

  /** Subtracting what was added gives back the original number, and
      conversely: `Subtract` undoes `Add` and `Add` undoes `Subtract`. */
  lemma SubtractInvertsAdd(x: int, y: int)
    ensures Subtract(Add(x, y), y) == x
    ensures Add(Subtract(x, y), y) == x
  {
  }

  lemma SubtractAntisymmetric(x: int, y: int)
    ensures Subtract(x, y) == -Subtract(y, x)
  {
  }

  lemma SubtractSelfIsZero(x: int)
    ensures Subtract(x, x) == 0
  {
  }

  // Properties of multiplication

  lemma MultiplyCommutative(x: int, y: int)
    ensures Multiply(x, y) == Multiply(y, x)
  {
  }

  lemma MultiplyZero(x: int)
    ensures Multiply(x, 0) == 0 && Multiply(0, x) == 0
  {
  }

  lemma MultiplyOneIdentity(x: int)
    ensures Multiply(x, 1) == x && Multiply(1, x) == x
  {
  }

  // Properties of division, the partial inverse of multiplication

  /** A zero divisor raises the `ValueError` for every dividend, zero included. */
  lemma DivideByZeroFails(x: int)
    ensures Divide(x, 0) == Failure(ValueError("Cannot divide by zero"))
  {
  }

  /** With a non-zero divisor the result is a success holding exactly the one
      real `q` for which `q * y == x`: any such `q` is the quotient, and the
      quotient is such a `q`. */
  lemma DivideQuotientUnique(x: int, y: int, q: real)
    requires y != 0
    ensures Divide(x, y) == Success(q) <==> q * (y as real) == x as real
  {
    if q * (y as real) == x as real {
      assert q == (q * (y as real)) / (y as real);
    }
  }

  /** Dividing a product by one of its non-zero factors gives the other factor. */
  lemma DivideInvertsMultiply(x: int, y: int)
    requires y != 0
    ensures Divide(Multiply(x, y), y) == Success(x as real)
  {
    DivideQuotientUnique(Multiply(x, y), y, x as real);
  }

  /** The worked scenarios a test suite for the module checks. */
  lemma ExampleCalls()
    ensures Add(10, 5) == 15
    ensures Subtract(10, 5) == 5
    ensures Multiply(10, 5) == 50
    ensures Divide(10, 5) == Success(2.0)
    ensures Divide(10, 0).Failure? && Divide(10, 0).error.message == "Cannot divide by zero"
  {
  }
}
