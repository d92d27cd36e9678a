/**
 * The statements of ControlFlow.java's `main`, each taken out as its own
 * function or method: the if-else grade ladder, the ternary pass/fail, the
 * two switches, and the loops, which return the values they print, in order.
 * The loop counters stay below 100, so `int` overflow plays no part.
 */
module ControlFlow {
  import opened JavaLang

  /** The if-else ladder on `score`: the first test that holds picks the grade. */
  function Grade(score: Int32): (grade: string)
    ensures grade == "优秀" <==> score >= 90
    ensures grade == "良好" <==> 80 <= score < 90
    ensures grade == "及格" <==> 60 <= score < 80
    ensures grade == "不及格" <==> score < 60
  {
    if score >= 90 then "优秀"
    else if score >= 80 then "良好"
    else if score >= 60 then "及格"
    else "不及格"
  }

  /** `(score >= 60) ? "通过" : "未通过"`. */
  function PassFail(score: Int32): (result: string)
    ensures result == "通过" <==> score >= 60
    ensures result == "未通过" <==> score < 60
  {
    if score >= 60 then "通过" else "未通过"
  }

  /** The ternary and the ladder agree: a score passes exactly when its grade is not 不及格. */
  lemma PassFailAgreesWithGrade(score: Int32)
    ensures PassFail(score) == "通过" <==> Grade(score) != "不及格"
  {
  }

  const DAY_NAMES: seq<string> := ["星期一", "星期二", "星期三", "星期四", "星期五", "星期六", "星期日"]
  const INVALID_DAY: string := "无效的日期"

  /** The `switch (day)` with its seven cases and the default. */
  function DayName(day: Int32): (name: string)
    ensures 1 <= day <= 7 ==> name == DAY_NAMES[day - 1]
    ensures name == INVALID_DAY <==> !(1 <= day <= 7)
  {
    if day == 1 then "星期一"
    else if day == 2 then "星期二"
    else if day == 3 then "星期三"
    else if day == 4 then "星期四"
    else if day == 5 then "星期五"
    else if day == 6 then "星期六"
    else if day == 7 then "星期日"
    else INVALID_DAY
  }

  /** Different days 1..7 get different names, so the switch loses no information. */
  lemma DayNamesDistinct(d1: Int32, d2: Int32)
    requires 1 <= d1 <= 7 && 1 <= d2 <= 7 && d1 != d2
    ensures DayName(d1) != DayName(d2)
  {
  }

  /**
   * The `switch (month)` on a String. A switch on a null String throws
   * NullPointerException; it cannot happen in `main`, where month is a literal.
   */
  function MonthName(month: Option<string>): (r: Result<string>)
    ensures r.Thrown? <==> month.None?
    ensures r.Thrown? ==> r.exception.cls == NullPointerException
    ensures r.Ok? ==> (r.value == "1月" <==> month.value == "January")
    ensures r.Ok? ==> (r.value == "2月" <==> month.value == "February")
    ensures r.Ok? ==> (r.value == "3月" <==> month.value == "March")
    ensures r.Ok? ==> (r.value == "其他月份" <==> month.value !in {"January", "February", "March"})
  {
    match month
    case None => Thrown(NullPointer())
    case Some(m) =>
      if m == "January" then Ok("1月")
      else if m == "February" then Ok("2月")
      else if m == "March" then Ok("3月")
      else Ok("其他月份")
  }

  /** The selections `main` makes: score 85, day 3, month "February". */
  lemma MainSelections()
    ensures Grade(85) == "良好" && PassFail(85) == "通过"
    ensures DayName(3) == "星期三"
    ensures MonthName(Some("February")) == Ok("2月")
  {
  }

  /** `for (int i = 1; i <= 5; i++)`: prints 1 to 5. */
  method ForLoop() returns (out: seq<int>)
    ensures out == [1, 2, 3, 4, 5]
  {
    out := [];
    for i := 1 to 6
      invariant |out| == i - 1
      invariant forall k :: 0 <= k < |out| ==> out[k] == k + 1
    {
      out := out + [i];
    }
  }

  /** The enhanced for over an `int[]`: prints its elements in index order. */
  method ForEach(numbers: array<int>) returns (out: seq<int>)
    ensures out == numbers[..]
  {
    out := [];
    for n := 0 to numbers.Length
      invariant out == numbers[..n]
    {
      out := out + [numbers[n]];
    }
  }

  /** `main`'s enhanced for over {10, 20, 30, 40, 50}. */
  method ForEachDemo() returns (out: seq<int>)
    ensures out == [10, 20, 30, 40, 50]
  {
    var numbers := new int[5];
    numbers[0], numbers[1], numbers[2], numbers[3], numbers[4] := 10, 20, 30, 40, 50;
    out := ForEach(numbers);
  }

  /** `while (count <= 5)` from count = 1: prints 1 to 5. */
  method WhileLoop() returns (out: seq<int>)
    ensures out == [1, 2, 3, 4, 5]
  {
    out := [];
    var count := 1;
    while count <= 5
      invariant 1 <= count <= 6
      invariant |out| == count - 1
      invariant forall k :: 0 <= k < |out| ==> out[k] == k + 1
    {
      out := out + [count];
      count := count + 1;
    }
  }

  /** `do { ... } while (j <= 5)` from j = 1: the body runs before the first test; prints 1 to 5. */
  method DoWhileLoop() returns (out: seq<int>)
    ensures out == [1, 2, 3, 4, 5]
  {
    out := [];
    var j := 1;
    while true
      invariant 1 <= j <= 5
      invariant |out| == j - 1
      invariant forall k :: 0 <= k < |out| ==> out[k] == k + 1
      decreases 6 - j
    {
      out := out + [j];
      j := j + 1;
      if !(j <= 5) {
        break;
      }
    }
  }

  /** The for loop over 1..10 that breaks at i == 6: prints 1 to 5 and nothing from 6 on. */
  method BreakLoop() returns (out: seq<int>)
    ensures out == [1, 2, 3, 4, 5]
    ensures forall k :: 0 <= k < |out| ==> out[k] < 6
  {
    out := [];
    for i := 1 to 11
      invariant i <= 6
      invariant |out| == i - 1
      invariant forall k :: 0 <= k < |out| ==> out[k] == k + 1
    {
      if i == 6 {
        break;
      }
      out := out + [i];
    }
  }

  /** The for loop over 1..10 that skips even i: prints the odd numbers, in order. */
  method ContinueLoop() returns (out: seq<int>)
    ensures out == [1, 3, 5, 7, 9]
    ensures forall k :: 0 <= k < |out| ==> out[k] % 2 == 1
  {
    out := [];
    for i := 1 to 11
      invariant |out| == i / 2
      invariant forall k :: 0 <= k < |out| ==> out[k] == 2 * k + 1
    {
      if i % 2 == 0 {
        continue;
      }
      out := out + [i];
    }
  }

  /** One entry of the multiplication table, printed as `k x i = k*i`. */
  datatype TableEntry = TableEntry(k: int, i: int, product: int)

  /**
   * The nested loops of the 9x9 table: row i (1..9) has the i entries
   * k x i for k = 1..i.
   */
  method MultiplicationTable() returns (rows: seq<seq<TableEntry>>)
    ensures |rows| == 9
    ensures forall i :: 0 <= i < 9 ==> |rows[i]| == i + 1
    ensures forall i, k :: 0 <= i < 9 && 0 <= k <= i ==> rows[i][k] == TableEntry(k + 1, i + 1, (k + 1) * (i + 1))
  {
    rows := [];
    for i := 1 to 10
      invariant |rows| == i - 1
      invariant forall r :: 0 <= r < |rows| ==> |rows[r]| == r + 1
      invariant forall r, k :: 0 <= r < |rows| && 0 <= k <= r ==> rows[r][k] == TableEntry(k + 1, r + 1, (k + 1) * (r + 1))
    {
      var row := [];
      for k := 1 to i + 1
        invariant |row| == k - 1
        invariant forall c :: 0 <= c < |row| ==> row[c] == TableEntry(c + 1, i, (c + 1) * i)
      {
        row := row + [TableEntry(k, i, k * i)];
      }
      rows := rows + [row];
    }
  }

  /**
   * The labeled break: the pairs (i, k) printed before `break outerLoop`
   * at i == 2, k == 2, and the pair at which it breaks.
   */
  method LabeledBreak() returns (out: seq<(int, int)>, brokeAt: (int, int))
    ensures out == [(1, 1), (1, 2), (1, 3), (2, 1)]
    ensures brokeAt == (2, 2)
  {
    out := [];
    brokeAt := (0, 0);
    label outerLoop:
    for i := 1 to 4
      invariant i <= 2
      invariant out == if i == 1 then [] else [(1, 1), (1, 2), (1, 3)]
    {
      for k := 1 to 4
        invariant i == 1 ==> out == [(1, 1), (1, 2), (1, 3)][..k - 1]
        invariant i == 2 ==> k <= 2 && out == [(1, 1), (1, 2), (1, 3)] + [(2, 1)][..k - 1]
      {
        if i == 2 && k == 2 {
          brokeAt := (i, k);
          break outerLoop;
        }
        out := out + [(i, k)];
      }
    }
  }
}
