/**
 * The functional interface `MathOperation` of LambdaBasics.java, with its
 * default method `andThen` and static method `add`, the `operate` helper,
 * the four arithmetic lambdas of `main` and the `multiply` closure. An
 * `operate` call on `int`s ends with a value or with the exception it throws.
 */
module LambdaBasics {
  import opened JavaLang

  /** `int operate(int a, int b)`, the one abstract method. */
  type MathOperation = (Int32, Int32) -> Result<Int32>

  /** `operate(a, b, operation)`: applies the operation to a and b. */
  function Operate(a: Int32, b: Int32, operation: MathOperation): (r: Result<Int32>)
    ensures r == operation(a, b)
  {
    operation(a, b)
  }

  /**
   * `op.andThen(after)`: `(a, b) -> after.operate(op.operate(a, b), 0)`.
   * The second operand of `after` is always 0; an exception thrown by op
   * propagates without calling `after`.
   */
  function AndThen(op: MathOperation, after: MathOperation): (r: MathOperation)
    ensures forall a: Int32, b: Int32 :: op(a, b).Thrown? ==> r(a, b) == op(a, b)
    ensures forall a: Int32, b: Int32 :: op(a, b).Ok? ==> r(a, b) == after(op(a, b).value, 0)
  {
    (a: Int32, b: Int32) =>
      match op(a, b)
      case Thrown(e) => Thrown(e)
      case Ok(v) => after(v, 0)
  }

  /** `(a, b) -> a + b`, which is also what `MathOperation.add()` returns. */
  function Addition(): (op: MathOperation)
    ensures forall a: Int32, b: Int32 :: op(a, b).Ok? && (op(a, b).value - (a + b)) % 0x1_0000_0000 == 0
  {
    (a: Int32, b: Int32) => Ok(Add32(a, b))
  }

  /** `MathOperation.add()`. */
  function AddOperation(): (op: MathOperation)
    ensures forall a: Int32, b: Int32 :: op(a, b) == Addition()(a, b)
  {
    (a: Int32, b: Int32) => Ok(Add32(a, b))
  }

  /** `(a, b) -> a - b`. */
  function Subtraction(): (op: MathOperation)
    ensures forall a: Int32, b: Int32 :: op(a, b).Ok? && (op(a, b).value - (a - b)) % 0x1_0000_0000 == 0
  {
    (a: Int32, b: Int32) => Ok(Sub32(a, b))
  }

  /** `(a, b) -> a * b`. */
  function Multiplication(): (op: MathOperation)
    ensures forall a: Int32, b: Int32 :: op(a, b).Ok? && (op(a, b).value - a * b) % 0x1_0000_0000 == 0
  {
    Mul32Congruent();
    (a: Int32, b: Int32) => Ok(Mul32(a, b))
  }

  /** `(a, b) -> a / b`: ArithmeticException when b is 0. */
  function Division(): (op: MathOperation)
    ensures forall a: Int32, b: Int32 :: op(a, b).Thrown? <==> b == 0
    ensures forall a: Int32, b: Int32 :: b != 0 ==> op(a, b) == Ok(Quotient32(a, b))
  {
    (a: Int32, b: Int32) => Divide32(a, b)
  }

  /** The four `operate` calls of `main` on (10, 5), and the division by zero the division lambda allows. */
  lemma OperateExamples()
    ensures Operate(10, 5, Addition()) == Ok(15)
    ensures Operate(10, 5, Subtraction()) == Ok(5)
    ensures Operate(10, 5, Multiplication()) == Ok(50)
    ensures Operate(10, 5, Division()) == Ok(2)
    ensures Operate(10, 0, Division()).Thrown? && Operate(10, 0, Division()).exception.cls == ArithmeticException
  {
    assert TruncatedQuotient(10, 5) == 2;
    assert Quotient32(10, 5) == Wrap(2);
  }

  /** `andThen` is associative: both groupings apply f, then g with 0, then h with 0. */
  lemma AndThenAssociative(f: MathOperation, g: MathOperation, h: MathOperation, a: Int32, b: Int32)
    ensures AndThen(AndThen(f, g), h)(a, b) == AndThen(f, AndThen(g, h))(a, b)
  {
  }

  /** Following an operation by `add()` adds the fixed 0 and so changes nothing. */
  lemma AndThenAddIsIdentity(op: MathOperation, a: Int32, b: Int32)
    ensures AndThen(op, AddOperation())(a, b) == op(a, b)
  {
  }

  /** Following a successful operation by the division lambda divides by the fixed 0 and always throws. */
  lemma AndThenDivisionThrows(op: MathOperation, a: Int32, b: Int32)
    requires op(a, b).Ok?
    ensures AndThen(op, Division())(a, b).Thrown?
    ensures AndThen(op, Division())(a, b).exception.cls == ArithmeticException
  {
  }

  /** Following a successful operation by the multiplication lambda always gives 0. */
  lemma AndThenMultiplicationIsZero(op: MathOperation, a: Int32, b: Int32)
    requires op(a, b).Ok?
    ensures AndThen(op, Multiplication())(a, b) == Ok(0)
  {
  }

  /** `n -> n * multiplier`, capturing the effectively final `multiplier`. */
  function MakeMultiply(multiplier: Int32): (f: Int32 -> Int32)
    ensures forall n: Int32 :: (f(n) - n * multiplier) % 0x1_0000_0000 == 0
  {
    Mul32Congruent();
    (n: Int32) => Mul32(n, multiplier)
  }

  /** With multiplier 2 the closure doubles, in `int` arithmetic; `multiply.apply(5)` is 10. */
  lemma MultiplyByTwo(n: Int32)
    ensures MakeMultiply(2)(n) == Add32(n, n)
    ensures MakeMultiply(2)(5) == 10
  {
  }
}
