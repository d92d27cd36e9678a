# java_demo_project, modelled in Dafny

java_demo_project is a set of Java tutorial programs. Each program walks through a language or library
feature and prints what happens. This project models the parts that contain logic of their own:

- the bounded producer/consumer `Buffer`;
- the workday counter and the next-birthday rule built on `java.time.LocalDate`;
- the guarded setters of `Person`;
- the static instance counter and the lazy `Singleton`;
- `Dog.equals`/`hashCode`;
- the throwing helpers of the exception tutorial;
- the control-flow statements of `ControlFlow.main`;
- the Optional-based e-mail lookup;
- the generic `Box`/`Pair`/`IntegerCalculator`;
- the `MathOperation` functional interface.

One Dafny module per Java file:

| module | file | Java source |
|---|---|---|
| `JavaLang` | java_lang.dfy | the Java semantics the others share |
| `ThreadCommunication` | thread_communication.dfy | module6_threads/ThreadCommunication.java |
| `DateTime` | date_time.dfy | module8_java8features/DateTimeAPI.java |
| `People` | person.dfy | module2_oop_basics/Person.java |
| `StaticMembers` | static_demo.dfy | module2_oop_basics/StaticDemo.java |
| `Inheritance` | inheritance.dfy | module3_oop_advanced/InheritanceExample.java |
| `ExceptionHandling` | exception_handling.dfy | module3_oop_advanced/ExceptionHandling.java |
| `ControlFlow` | control_flow.dfy | module1_basics/ControlFlow.java |
| `OptionalExample` | optional_example.dfy | module8_java8features/OptionalExample.java |
| `GenericExample` | generic_example.dfy | module4_collections/GenericExample.java |
| `LambdaBasics` | lambda_basics.dfy | module7_lambda/LambdaBasics.java |

How `JavaLang` represents Java:

- **`int`.** The subset type `Int32`. Overflow is written out: `+`, `-` and `*` wrap modulo 2^32 (`Wrap`). `/` rounds toward zero, throws ArithmeticException for a zero divisor, and wraps `MIN_VALUE / -1` (`Quotient32`, `Divide32`).
- **References that may be null.** `Option`.
- **Exceptions.** A call that can throw returns `Result` (a value or the thrown `JavaException`); a `void` call returns `Outcome`. A `JavaException` carries its class, its message and its cause.
- **`String.hashCode`.** Computed over the UTF-16 code units of the string.
- **Classes whose fields the Java code assigns.** These become Dafny classes with `modifies` clauses: `Buffer`, `Person`, `Animal`/`Dog`, `Box`, `Singleton`.
- **Static fields.** Dafny has no static state. `StaticDemo.instanceCount` and `Singleton.instance` each live in one shared object (`StaticDemoStatics`, `SingletonStatics`), which the callers pass around.
- **`Dog extends Animal`.** A `Dog` holds its `Animal` part as the constant field `animal`.

`Buffer` is modelled sequentially. In Java, a `while (cond) wait();` guard blocks the calling thread. Here that call returns at once instead, with `false` from `Put` or `None` from `Get`, and leaves the buffer unchanged. This is the state the waiting thread sees until another thread changes the buffer.

Pure step functions `PutStep`/`GetStep` carry the proofs about the buffer. So does `Run`, which runs any sequence of calls in any interleaving and records what was taken and what was given.

`LocalDate` is a (year, month, day) value. Its year lies in -999999999..999999999, as `java.time` allows. `EpochDay` counts days from 1970-01-01. From it come the day of the week (`floorMod(epochDay + 3, 7)`, as in the JDK) and the order of dates. `calculateNextBirthday` takes `today` as a parameter instead of reading the clock.

## Model

| member | source | states |
|---|---|---|
| `ThreadCommunication.Buffer.constructor` | module6_threads/ThreadCommunication.java:174-179 | a new buffer is empty and records the capacity as given, with no check on its sign |
| `ThreadCommunication.Buffer.Put` | module6_threads/ThreadCommunication.java:182-195 | stores exactly when the size differs from the capacity; the value is appended at the tail; when the call would wait the queue is unchanged; the capacity never changes; the step agrees with `PutStep`; the bound size <= capacity is preserved |
| `ThreadCommunication.Buffer.Get` | module6_threads/ThreadCommunication.java:198-213 | returns a value exactly when the queue is non-empty; that value is the old head and the queue loses it (size minus one); otherwise the queue is unchanged; the step agrees with `GetStep`; the bound is preserved |
| `ThreadCommunication.StepsKeepBound` | module6_threads/ThreadCommunication.java:184-206 | a completed put or get keeps 0 <= size <= capacity |
| `ThreadCommunication.NegativeCapacityNeverFull` | module6_threads/ThreadCommunication.java:177-184 | with a negative capacity the `==` guard never holds, so put never waits and the bound is already broken |
| `ThreadCommunication.RunIsFifo` | module6_threads/ThreadCommunication.java:190-206 | after any sequence of calls, the values taken followed by those still queued equal the initial queue followed by the values given: FIFO order, nothing lost or duplicated |
| `ThreadCommunication.TakenIsPrefixOfGiven` | module6_threads/ThreadCommunication.java:190-206 | from an empty buffer, the values returned by get are a prefix of the values passed to put, in the same order |
| `ThreadCommunication.CompletedRunReturnsAllGiven` | module6_threads/ThreadCommunication.java:72-98 | in any interleaving where as many gets as puts completed, the consumer received exactly the produced values in order and the buffer is empty |
| `ThreadCommunication.RunKeepsBound` | module6_threads/ThreadCommunication.java:184-206 | every state reached from a bounded state by any calls is bounded |
| `ThreadCommunication.NewBufferStaysBounded` | module6_threads/ThreadCommunication.java:177-206 | a new buffer with capacity >= 0 keeps 0 <= size <= capacity under any calls |
| `ThreadCommunication.PutThenGet` | module6_threads/ThreadCommunication.java:190-206 | put(x) then get() on an empty buffer returns x and leaves it empty; with capacity 0 both calls would wait |
| `ThreadCommunication.ProducerConsumerDemo` | module6_threads/ThreadCommunication.java:72-98 | on a buffer of capacity 5, the puts of 1..10, each followed by a get, deliver 1..10 in order |
| `DateTime.CompareMatchesEpochDay` | module8_java8features/DateTimeAPI.java:258 | the date order used by `isAfter`/`isBefore`/`isEqual` is the order of epoch days, and equal comparison means the same date |
| `DateTime.PlusOneDay` | module8_java8features/DateTimeAPI.java:263 | `plusDays(1)` gives the date whose epoch day is one more, and throws DateTimeException exactly at LocalDate.MAX |
| `DateTime.EpochOriginIsThursday` | module8_java8features/DateTimeAPI.java:259 | `getDayOfWeek` puts 1970-01-01 on a Thursday and 1970-01-05 on a Monday |
| `DateTime.WorkdaysAtMostDays` | module8_java8features/DateTimeAPI.java:255-266 | the number of workdays in an inclusive range is at most its number of days |
| `DateTime.IsWorkdayAtMatchesDayOfWeek` | module8_java8features/DateTimeAPI.java:258-259 | an epoch day counts as a workday exactly when `getDayOfWeek` gives neither SATURDAY nor SUNDAY |
| `DateTime.WorkdaysIsCount` | module8_java8features/DateTimeAPI.java:259-262 | the workday count equals the size of the set of days in the range that are neither Saturday nor Sunday |
| `DateTime.WeekHasFiveWorkdays` | module8_java8features/DateTimeAPI.java:259-262 | any seven consecutive days contain exactly five workdays |
| `DateTime.CountWorkdays` | module8_java8features/DateTimeAPI.java:254-267 | 0 when the start is after the end; otherwise the loop visits the epoch days of the inclusive range once each, in order, and returns the number of them that fall on Monday..Friday; throws DateTimeException exactly when the range ends at LocalDate.MAX, from the last `plusDays(1)` |
| `DateTime.ResolvePreviousValid` | module8_java8features/DateTimeAPI.java:274-277 | keeps year and month and clamps the day to the length of the month |
| `DateTime.WithYear` | module8_java8features/DateTimeAPI.java:274 | `withYear` keeps month and day, except that 29 February becomes 28 February in a common year |
| `DateTime.PlusYears` | module8_java8features/DateTimeAPI.java:277 | `plusYears` moves the year, keeps the month and the day, except that 29 February becomes the 28th when the target year is not a leap year, and throws DateTimeException past the supported years |
| `DateTime.CalculateNextBirthday` | module8_java8features/DateTimeAPI.java:272-281 | the result is strictly after today; its year is today's or the next; its month is the birthday's; its day is the birthday's or 28 for a 29 February birthday, and is exactly the this-year date's day clamped to the length of the result's month, so a 29 February birthday clamped to the 28th in a common year stays on the 28th in the following leap year; the this-year date is returned unchanged when it is after today, and the next-year date only when it is not; DateTimeException only in the last supported year |
| `DateTime.LeapDayBirthdayStaysClamped` | module8_java8features/DateTimeAPI.java:274-277 | a 29 February birthday seen from 2023 comes out as 28 February, even when the next birthday falls in the leap year 2024 |
| `DateTime.NextBirthdayExamples` | module8_java8features/DateTimeAPI.java:272-281 | for birthday 1990-05-15: 2024-05-15 from 2023-10-20 and from the birthday itself, 2023-05-15 from the day before |
| `People.GenderLabel` | module2_oop_basics/Person.java:38-39 | the label is 男 exactly for '男', 女 exactly for '女' and 未知 for every other character |
| `People.Person.IntroduceGenderLabel` | module2_oop_basics/Person.java:35-40 | `introduce` prints 未知 exactly when the stored gender is neither '男' nor '女' |
| `People.Person.IsAdult` | module2_oop_basics/Person.java:43-45 | true exactly when age >= 18 |
| `People.Person.Default` | module2_oop_basics/Person.java:17-19 | the no-argument constructor leaves Java's default values: null name, age 0, gender '\u0000' |
| `People.Person.constructor` | module2_oop_basics/Person.java:22-27 | name, age and gender are stored as given, without the setters' checks |
| `People.Person.WithoutGender` | module2_oop_basics/Person.java:30-32 | name and age as given, gender '未' |
| `People.Person.GetName` | module2_oop_basics/Person.java:48-50 | returns the stored name |
| `People.Person.SetName` | module2_oop_basics/Person.java:52-54 | stores the name, null included; age and gender unchanged |
| `People.Person.GetAge` | module2_oop_basics/Person.java:56-58 | returns the stored age |
| `People.Person.SetAge` | module2_oop_basics/Person.java:60-67 | stores the age exactly when 0 <= age <= 150, otherwise leaves it unchanged; a valid age stays valid; name and gender unchanged |
| `People.Person.GetGender` | module2_oop_basics/Person.java:69-71 | returns the stored gender |
| `People.Person.SetGender` | module2_oop_basics/Person.java:73-80 | stores '男' or '女' as given and '未' for anything else; name and age unchanged |
| `People.SetterKeepsGenderLabel` | module2_oop_basics/Person.java:73-80 | replacing an invalid gender by '未' does not change the label `introduce` prints |
| `People.PersonDemo` | module2_oop_basics/Person.java:83-120 | the calls of `main`: person1 is 25 after setAge(25) and then setAge(200), introduces itself as 男 and is adult; person2 (17) is not adult; person3 ends with '未' after setGender('X') |
| `StaticMembers.StaticDemoStatics.constructor` | module2_oop_basics/StaticDemo.java:10 | the count starts at 0 |
| `StaticMembers.StaticDemoStatics.GetInstanceCount` | module2_oop_basics/StaticDemo.java:34-36 | returns the current count |
| `StaticMembers.StaticDemo.constructor` | module2_oop_basics/StaticDemo.java:22-31 | each construction adds exactly one to the count (wrapping as an `int`) and stores the name |
| `StaticMembers.InstanceCountDemo` | module2_oop_basics/StaticDemo.java:59-72 | the count is 0 at the start and 2 after the two constructions of `main` |
| `StaticMembers.Singleton.constructor` | module2_oop_basics/StaticDemo.java:103-108 | a new instance has null data |
| `StaticMembers.Singleton.GetData` | module2_oop_basics/StaticDemo.java:120-122 | returns the stored data |
| `StaticMembers.Singleton.SetData` | module2_oop_basics/StaticDemo.java:124-126 | stores the data |
| `StaticMembers.SingletonStatics.constructor` | module2_oop_basics/StaticDemo.java:100 | no instance exists and the private constructor has not run |
| `StaticMembers.SingletonStatics.GetInstance` | module2_oop_basics/StaticDemo.java:111-117 | the first call creates a fresh instance with null data; every later call returns that same object without constructing; the constructor runs at most once |
| `StaticMembers.SingletonDemo` | module2_oop_basics/StaticDemo.java:84-91 | the two `getInstance` calls return the same object and data set through one reference is read through the other |
| `Inheritance.Animal.constructor` | module3_oop_advanced/InheritanceExample.java:65-69 | stores name and age |
| `Inheritance.Animal.GetName` | module3_oop_advanced/InheritanceExample.java:81-83 | returns the name |
| `Inheritance.Animal.SetName` | module3_oop_advanced/InheritanceExample.java:85-87 | stores any name, null included; the age is unchanged |
| `Inheritance.Animal.GetAge` | module3_oop_advanced/InheritanceExample.java:89-91 | returns the age |
| `Inheritance.Animal.SetAge` | module3_oop_advanced/InheritanceExample.java:93-95 | stores any age; the name is unchanged |
| `Inheritance.Dog.constructor` | module3_oop_advanced/InheritanceExample.java:111-115 | `super(name, age)` on a fresh Animal part, then the breed |
| `Inheritance.Dog.GetBreed` | module3_oop_advanced/InheritanceExample.java:129-131 | returns the breed |
| `Inheritance.Dog.SetBreed` | module3_oop_advanced/InheritanceExample.java:133-135 | stores the breed |
| `Inheritance.FieldsEqual` | module3_oop_advanced/InheritanceExample.java:149-152 | true exactly when the three fields are equal and the receiver's name and breed are non-null; NullPointerException exactly when the short-circuit evaluation reaches a null name or breed of the receiver |
| `Inheritance.Dog.Equals` | module3_oop_advanced/InheritanceExample.java:145-153 | true for the same reference; false for null and for other classes; otherwise true exactly when the fields are equal and non-null; it throws only for a different Dog |
| `Inheritance.HashStepsClosedForm` | module3_oop_advanced/InheritanceExample.java:157-161 | the step-by-step wrapped computation equals the single wrapped value 961*h(name) + 31*age + h(breed) |
| `Inheritance.FieldsHash` | module3_oop_advanced/InheritanceExample.java:157-162 | NullPointerException exactly when the name or the breed is null; otherwise `31*(31*h(name) + age) + h(breed)` modulo 2^32, with h = `String.hashCode` |
| `Inheritance.Dog.HashCode` | module3_oop_advanced/InheritanceExample.java:156-162 | the same, on the Dog's current fields |
| `Inheritance.FieldsEqualSymmetric` | module3_oop_advanced/InheritanceExample.java:149-152 | a true field comparison is symmetric |
| `Inheritance.FieldsEqualTransitive` | module3_oop_advanced/InheritanceExample.java:149-152 | a true field comparison is transitive |
| `Inheritance.NullNameIsAsymmetric` | module3_oop_advanced/InheritanceExample.java:149-152 | with a null name one direction throws while the other answers false |
| `Inheritance.EqualsIsEquivalence` | module3_oop_advanced/InheritanceExample.java:145-153 | `equals` is reflexive for every Dog, and symmetric and transitive where it answers true |
| `Inheritance.EqualDogsHaveEqualHashCodes` | module3_oop_advanced/InheritanceExample.java:145-162 | Dogs that `equals` calls equal have the same `hashCode` outcome, which is a value when they are distinct objects |
| `Inheritance.EqualDogsDemo` | module3_oop_advanced/InheritanceExample.java:50-53 | two distinct Dogs built as ("旺财", 3, "金毛") are equal and have the same hash code |
| `JavaLang.Quotient32` | module3_oop_advanced/ExceptionHandling.java:107 | Java `int` division: the remainder has the dividend's sign and is smaller than the divisor; MIN_VALUE / -1 gives MIN_VALUE |
| `ExceptionHandling.Divide` | module3_oop_advanced/ExceptionHandling.java:106-108 | ArithmeticException exactly for a zero divisor; otherwise the quotient rounded toward zero, with MIN_VALUE / -1 wrapping |
| `ExceptionHandling.DivideIsTruncatedQuotient` | module3_oop_advanced/ExceptionHandling.java:107 | apart from MIN_VALUE / -1, the result is the exact quotient rounded toward zero |
| `ExceptionHandling.DivideRoundsTowardZero` | module3_oop_advanced/ExceptionHandling.java:107 | 7/2 = 3, -7/2 = -3 (not the Euclidean -4), 7/-2 = -3, MIN_VALUE/-1 = MIN_VALUE |
| `ExceptionHandling.ValidateAge` | module3_oop_advanced/ExceptionHandling.java:124-128 | IllegalArgumentException with the message 年龄必须大于或等于18 exactly when age < 18 |
| `ExceptionHandling.MethodWithThrows` | module3_oop_advanced/ExceptionHandling.java:119-121 | always throws an IOException with the message 这是一个IO异常示例 |
| `ExceptionHandling.MethodWithExceptionChaining` | module3_oop_advanced/ExceptionHandling.java:131-140 | always throws an Exception 处理数据时出错 whose cause is the IOException IO操作失败 it caught |
| `ExceptionHandling.ExceptionHandlingExamples` | module3_oop_advanced/ExceptionHandling.java:18-102 | divide(10, 0) throws with "/ by zero", validateAge(15) throws, validateAge(25) returns, and the chained cause carries IO操作失败 |
| `ControlFlow.Grade` | module1_basics/ControlFlow.java:16-24 | 优秀 exactly for score >= 90, 良好 for 80..89, 及格 for 60..79, 不及格 below 60 |
| `ControlFlow.PassFail` | module1_basics/ControlFlow.java:27 | 通过 exactly when score >= 60, otherwise 未通过 |
| `ControlFlow.PassFailAgreesWithGrade` | module1_basics/ControlFlow.java:16-27 | the ternary passes exactly the scores whose grade is not 不及格 |
| `ControlFlow.DayName` | module1_basics/ControlFlow.java:34-59 | days 1..7 map to 星期一..星期日 in order and every other int to 无效的日期 |
| `ControlFlow.DayNamesDistinct` | module1_basics/ControlFlow.java:34-59 | different days 1..7 get different names |
| `ControlFlow.MonthName` | module1_basics/ControlFlow.java:63-76 | January, February and March map to 1月, 2月 and 3月 and every other string to 其他月份; a null string throws NullPointerException |
| `ControlFlow.MainSelections` | module1_basics/ControlFlow.java:14-76 | score 85 is 良好 and 通过, day 3 is 星期三, February is 2月 |
| `ControlFlow.ForLoop` | module1_basics/ControlFlow.java:81-83 | emits exactly 1, 2, 3, 4, 5 |
| `ControlFlow.ForEach` | module1_basics/ControlFlow.java:89-91 | emits the array's elements in index order |
| `ControlFlow.ForEachDemo` | module1_basics/ControlFlow.java:88-91 | emits 10, 20, 30, 40, 50 |
| `ControlFlow.WhileLoop` | module1_basics/ControlFlow.java:96-101 | emits exactly 1, 2, 3, 4, 5 |
| `ControlFlow.DoWhileLoop` | module1_basics/ControlFlow.java:106-111 | emits exactly 1, 2, 3, 4, 5, with the body run before the first test |
| `ControlFlow.BreakLoop` | module1_basics/ControlFlow.java:117-122 | emits 1..5 and nothing from 6 on |
| `ControlFlow.ContinueLoop` | module1_basics/ControlFlow.java:128-133 | emits exactly the odd numbers 1, 3, 5, 7, 9 |
| `ControlFlow.MultiplicationTable` | module1_basics/ControlFlow.java:139-144 | nine rows; row i has i entries, the k-th being k x i = k*i |
| `ControlFlow.LabeledBreak` | module1_basics/ControlFlow.java:148-157 | emits (1,1), (1,2), (1,3), (2,1) and leaves both loops at (2,2) |
| `OptionalExample.Lookup` | module8_java8features/OptionalExample.java:169 | `users.get` finds a user exactly when the id is a key, and then it is that key's user |
| `OptionalExample.GetUserEmailTraditional` | module8_java8features/OptionalExample.java:168-171 | NullPointerException exactly when the id is absent; otherwise the user's e-mail, possibly null |
| `OptionalExample.GetUserEmailWithOptional` | module8_java8features/OptionalExample.java:174-178 | the stored e-mail when the user exists and the e-mail is non-null; 用户不存在或邮箱未设置 when the id is absent or the e-mail is null |
| `OptionalExample.LookupsAgree` | module8_java8features/OptionalExample.java:168-178 | the two lookups agree wherever the traditional one yields an e-mail, and the Optional one yields the default wherever the other throws or yields null |
| `OptionalExample.UpperChar` | module8_java8features/OptionalExample.java:145 | lower-case ASCII letters become upper case and other characters are kept |
| `OptionalExample.ToUpperCase` | module8_java8features/OptionalExample.java:145 | same length, each character upper-cased |
| `OptionalExample.ToUpperCaseKeepsAt` | module8_java8features/OptionalExample.java:144-145 | upper-casing neither adds nor removes an '@' |
| `OptionalExample.EmailChain` | module8_java8features/OptionalExample.java:142-146 | the upper-cased e-mail exactly when the user exists, the e-mail is non-null and contains '@'; otherwise 无效邮箱 |
| `OptionalExample.EmailChainHasAtIffValid` | module8_java8features/OptionalExample.java:142-164 | the chain's result contains '@' exactly when it came from a valid e-mail |
| `OptionalExample.MainLookups` | module8_java8features/OptionalExample.java:110-164 | on the users of `main`: user 1 gives its e-mail and ZHANGSAN@EXAMPLE.COM, user 3 throws or gives the defaults, user 4 (null e-mail) gives the defaults |
| `GenericExample.Box.constructor` | module4_collections/GenericExample.java:146-147 | a new Box holds null |
| `GenericExample.Box.SetItem` | module4_collections/GenericExample.java:149-151 | stores the item |
| `GenericExample.Box.GetItem` | module4_collections/GenericExample.java:153-155 | returns what the last `setItem` stored |
| `GenericExample.Pair.constructor` | module4_collections/GenericExample.java:165-168 | stores key and value in constant fields, so nothing can change them |
| `GenericExample.Pair.GetKey` | module4_collections/GenericExample.java:170-172 | returns the constructor's key |
| `GenericExample.Pair.GetValue` | module4_collections/GenericExample.java:174-176 | returns the constructor's value |
| `GenericExample.Add` | module4_collections/GenericExample.java:192-194 | NullPointerException exactly when an argument is null; otherwise a + b modulo 2^32, and exactly a + b when that fits in an `int` |
| `GenericExample.Subtract` | module4_collections/GenericExample.java:197-199 | NullPointerException exactly when an argument is null; otherwise a - b modulo 2^32, and exactly a - b when that fits |
| `GenericExample.SubtractUndoesAdd` | module4_collections/GenericExample.java:192-199 | subtract(add(a, b), b) == a, overflow included |
| `GenericExample.AddUndoesSubtract` | module4_collections/GenericExample.java:192-199 | add(subtract(a, b), b) == a, overflow included |
| `GenericExample.AddCommutative` | module4_collections/GenericExample.java:192-194 | add(a, b) == add(b, a), exceptions included |
| `GenericExample.AddWrapsAround` | module4_collections/GenericExample.java:192-194 | MAX_VALUE + 1 is MIN_VALUE |
| `GenericExample.CompareObjects` | module4_collections/GenericExample.java:138-140 | on `Integer`s: -1, 0 or 1; negative exactly when a < b, zero exactly when a == b, positive exactly when a > b; NullPointerException for a null argument |
| `GenericExample.CompareAntisymmetric` | module4_collections/GenericExample.java:138-140 | swapping the arguments negates the result |
| `GenericExample.GenericDemo` | module4_collections/GenericExample.java:48-107 | the calls of `main`: the boxes give back 10 and Hello泛型, the pair gives back 年龄 and 25, add(5, 3) is 8, compareObjects(10, 20) is -1 |
| `LambdaBasics.Operate` | module7_lambda/LambdaBasics.java:151-153 | `operate` applies the operation to its two arguments |
| `LambdaBasics.AndThen` | module7_lambda/LambdaBasics.java:166-168 | the composite applies `after` to the first result and the constant 0; an exception from the first operation propagates |
| `LambdaBasics.Addition` | module7_lambda/LambdaBasics.java:95 | never throws and gives a + b modulo 2^32 |
| `LambdaBasics.AddOperation` | module7_lambda/LambdaBasics.java:171-173 | `MathOperation.add()` behaves like the addition lambda on every input |
| `LambdaBasics.Subtraction` | module7_lambda/LambdaBasics.java:96 | never throws and gives a - b modulo 2^32 |
| `LambdaBasics.Multiplication` | module7_lambda/LambdaBasics.java:97 | never throws and gives a * b modulo 2^32 |
| `LambdaBasics.Division` | module7_lambda/LambdaBasics.java:98 | throws exactly when b == 0; otherwise Java's `int` quotient |
| `LambdaBasics.OperateExamples` | module7_lambda/LambdaBasics.java:100-103 | on (10, 5): 15, 5, 50 and 2; the division lambda throws ArithmeticException for a zero divisor |
| `LambdaBasics.AndThenAssociative` | module7_lambda/LambdaBasics.java:166-168 | (f.andThen(g)).andThen(h) and f.andThen(g.andThen(h)) agree on every input |
| `LambdaBasics.AndThenAddIsIdentity` | module7_lambda/LambdaBasics.java:166-173 | op.andThen(add()) equals op, because the second operand is 0 |
| `LambdaBasics.AndThenDivisionThrows` | module7_lambda/LambdaBasics.java:166-168 | following a successful operation by the division lambda divides by 0 and always throws ArithmeticException |
| `LambdaBasics.AndThenMultiplicationIsZero` | module7_lambda/LambdaBasics.java:166-168 | following a successful operation by the multiplication lambda always gives 0 |
| `LambdaBasics.MakeMultiply` | module7_lambda/LambdaBasics.java:130-133 | the closure returns n * multiplier modulo 2^32 |
| `LambdaBasics.MultiplyByTwo` | module7_lambda/LambdaBasics.java:130-134 | with multiplier 2 the closure doubles its argument in `int` arithmetic, and multiply.apply(5) is 10 |

## Left out

- Concurrency in `Buffer`. `synchronized`, the blocking within `wait()`, `notifyAll()` and InterruptedException are not modelled. A call that would wait returns at once and changes nothing, and a schedule is a sequence of calls (`Run`).
- The thread demos in `ThreadCommunication.main` are not modelled; the producer and consumer threads appear only as interleavings of calls.
- Console output is not modelled anywhere: println text, `toString`, and the setters' warning messages. The loop methods return the values they print.
- `LocalDate.now()` is not called. Today's date is a parameter of `CalculateNextBirthday`.
- The fixed October 2023 range that `main` passes to `countWorkdays` is not evaluated. Its epoch days would need a closed form of `DaysBeforeYear`.
- The rest of `DateTimeAPI.main` is not modelled: the formatters, time zones, `Period`, `Duration` and `calculateAge`. These are thin calls into `java.time`.
- JavaLang.StringHash: Dafny characters are Unicode scalar values. Strings holding lone UTF-16 surrogates cannot be written, so `String.hashCode` is modelled only for well-formed strings.
- `Person.gender`: a Java `char` is one UTF-16 code unit and can be a lone surrogate; a Dafny `char` cannot. Such a value would take the 未知 / '未' branch like any other character, so no modelled result depends on it.
- OptionalExample.ToUpperCase: only the ASCII letters a-z are mapped. Java's `toUpperCase` also maps other letters according to the default locale.
- `User` values in the users map are non-null; a map entry whose value is null is not modelled (`Map.get` returns null there as for an absent key).
- `GenericExample.compareObjects` is modelled only on `Integer`. Its `Double` and `String` calls in `main` are not modelled, and neither are `sumOfList` and `DoubleCalculator` (floating point).
- `printArray`, the raw-type `ClassCastException` demo and the type-erasure `getClass` checks of GenericExample.java are not modelled.
- The messages of exceptions that the JVM or JDK creates are not modelled: NullPointerException, DateTimeException. It gives them no message. ArithmeticException from `/` carries "/ by zero".
- `readFirstLineFromFile`, `checkBalance` and `InsufficientFundsException` (file I/O, floating point) are not modelled, and neither are the try/catch/finally demos in `ExceptionHandling.main` except for the calls listed in the table.
- The `Cat` class, `eat`/`sleep`/`bark` (printing only) and the `instanceof` downcast demo of InheritanceExample.java are not modelled.
- `StaticDemo.staticMethod` and `nonStaticMethod` only print; the static initializer block runs no logic.
- The JDK functional interfaces demonstrated in `LambdaBasics.main` (`Runnable`, `Consumer`, `Predicate`, `Supplier`, method references, `forEach`) are not modelled.
- `LambdaBasics.MakeMultiply`: the argument is a non-null `Integer`. Unboxing a null one would throw.
- The loop counters of ControlFlow.java are unbounded integers in the model. They stay below 100, so `int` overflow cannot occur there.
