/**
 * The static helpers of ExceptionHandling.java: integer division, the age
 * check that throws, and the two methods that always throw. Each call ends
 * Normal/Ok or with the exception it raises.
 */
module ExceptionHandling {
  import opened JavaLang

  /**
   * `divide(a, b)`, which is `a / b` on `int`: ArithmeticException for a
   * zero divisor, otherwise the quotient rounded toward zero, with
   * MIN_VALUE / -1 wrapping to MIN_VALUE.
   */
  function Divide(a: Int32, b: Int32): (r: Result<Int32>)
    ensures r.Thrown? <==> b == 0
    ensures r.Thrown? ==> r.exception.cls == ArithmeticException
    ensures r.Ok? && a == MIN_INT && b == -1 ==> r.value == MIN_INT
    ensures r.Ok? && !(a == MIN_INT && b == -1) ==>
              var rem := a - r.value * b;
              Abs(rem) < Abs(b) && (rem == 0 || (rem < 0 <==> a < 0))
  {
    Divide32(a, b)
  }

  /** Apart from MIN_VALUE / -1, `divide` is exact division rounded toward zero. */
  lemma DivideIsTruncatedQuotient(a: Int32, b: Int32)
    requires b != 0 && !(a == MIN_INT && b == -1)
    ensures Divide(a, b) == Ok(TruncatedQuotient(a, b))
  {
    TruncatedQuotientOverflow(a, b);
  }

  /** Rounding toward zero differs from Dafny's Euclidean division on a negative dividend. */
  lemma DivideRoundsTowardZero()
    ensures Divide(7, 2) == Ok(3)
    ensures Divide(-7, 2) == Ok(-3) && (-7) / 2 == -4
    ensures Divide(7, -2) == Ok(-3)
    ensures Divide(MIN_INT, -1) == Ok(MIN_INT)
  {
    DivideIsTruncatedQuotient(7, 2);
    DivideIsTruncatedQuotient(-7, 2);
    DivideIsTruncatedQuotient(7, -2);
  }

  const AGE_MESSAGE: string := "年龄必须大于或等于18"

  /** `validateAge(age)`: IllegalArgumentException exactly when age < 18. */
  function ValidateAge(age: Int32): (r: Outcome)
    ensures r.Raised? <==> age < 18
    ensures r.Raised? ==> r.exception.cls == IllegalArgumentException && r.exception.message == Some(AGE_MESSAGE)
    ensures r.Raised? ==> r.exception.cause == None
  {
    if age < 18 then Raised(Throw(IllegalArgumentException, AGE_MESSAGE)) else Normal
  }

  /** `methodWithThrows()`: declares IOException and always throws one. */
  function MethodWithThrows(): (r: Outcome)
    ensures r.Raised? && r.exception.cls == IOException
    ensures r.exception.message == Some("这是一个IO异常示例") && r.exception.cause == None
  {
    Raised(Throw(IOException, "这是一个IO异常示例"))
  }

  /**
   * `methodWithExceptionChaining()`: throws an IOException, catches it and
   * throws a plain Exception whose cause is the IOException.
   */
  function MethodWithExceptionChaining(): (r: Outcome)
    ensures r.Raised? && r.exception.cls == PlainException
    ensures r.exception.message == Some("处理数据时出错")
    ensures r.exception.cause.Some? && r.exception.cause.value.cls == IOException
    ensures r.exception.cause.value.message == Some("IO操作失败") && r.exception.cause.value.cause == None
  {
    var e := Throw(IOException, "IO操作失败");
    var newException := JavaException(PlainException, Some("处理数据时出错"), None);
    Raised(JavaException(newException.cls, newException.message, Some(e)))
  }

  /**
   * The calls of `main`: divide(10, 0) ends in ArithmeticException with
   * message "/ by zero", validateAge(15) throws, validateAge(25) returns,
   * and the chained exception's cause carries "IO操作失败".
   */
  lemma ExceptionHandlingExamples()
    ensures Divide(10, 0).Thrown? && Divide(10, 0).exception.message == Some("/ by zero")
    ensures ValidateAge(15).Raised? && ValidateAge(25) == Normal
    ensures MethodWithExceptionChaining().exception.cause.value.message == Some("IO操作失败")
  {
  }
}
