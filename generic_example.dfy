/**
 * The generic classes of GenericExample.java (`Box<T>`, `Pair<K, V>`), the
 * `Calculator<Integer>` implementation `IntegerCalculator`, and
 * `compareObjects` used on `Integer`s. `Integer` arguments are references
 * that may be null, and unboxing a null one throws NullPointerException.
 */
module GenericExample {
  import opened JavaLang

  /** `class Box<T>`: one field, null until the first `setItem`. */
  class Box<T> {
    var item: Option<T>

    constructor ()
      ensures item == None
    {
      item := None;
    }

    method SetItem(item: Option<T>)
      modifies this
      ensures this.item == item
    {
      this.item := item;
    }

    method GetItem() returns (r: Option<T>)
      ensures r == item
    {
      r := item;
    }
  }

  /** `class Pair<K, V>`: both fields are set by the constructor, and nothing changes them. */
  class Pair<K, V> {
    const key: K
    const value: V

    constructor (key: K, value: V)
      ensures this.key == key && this.value == value
    {
      this.key := key;
      this.value := value;
    }

    method GetKey() returns (r: K)
      ensures r == key
    {
      r := key;
    }

    method GetValue() returns (r: V)
      ensures r == value
    {
      r := value;
    }
  }

  /** `IntegerCalculator.add(Integer a, Integer b)`: `a + b` after unboxing, in `int` arithmetic. */
  function Add(a: Option<Int32>, b: Option<Int32>): (r: Result<Int32>)
    ensures r.Thrown? <==> a.None? || b.None?
    ensures r.Thrown? ==> r.exception == NullPointer()
    ensures r.Ok? ==> (r.value - (a.value + b.value)) % 0x1_0000_0000 == 0
    ensures r.Ok? && MIN_INT <= a.value + b.value <= MAX_INT ==> r.value == a.value + b.value
  {
    if a.None? || b.None? then Thrown(NullPointer()) else Ok(Add32(a.value, b.value))
  }

  /** `IntegerCalculator.subtract(Integer a, Integer b)`: `a - b` after unboxing, in `int` arithmetic. */
  function Subtract(a: Option<Int32>, b: Option<Int32>): (r: Result<Int32>)
    ensures r.Thrown? <==> a.None? || b.None?
    ensures r.Thrown? ==> r.exception == NullPointer()
    ensures r.Ok? ==> (r.value - (a.value - b.value)) % 0x1_0000_0000 == 0
    ensures r.Ok? && MIN_INT <= a.value - b.value <= MAX_INT ==> r.value == a.value - b.value
  {
    if a.None? || b.None? then Thrown(NullPointer()) else Ok(Sub32(a.value, b.value))
  }

  /** Subtracting b undoes adding b, even when the addition overflowed. */
  lemma SubtractUndoesAdd(a: Int32, b: Int32)
    ensures Subtract(Some(Add(Some(a), Some(b)).value), Some(b)) == Ok(a)
  {
    var sum := Add32(a, b);
    assert Add(Some(a), Some(b)) == Ok(sum);
    assert Subtract(Some(sum), Some(b)) == Ok(Wrap(sum - b));
    WrapInner(1, a + b, -(b as int));
    assert 1 * sum + -(b as int) == sum - b;
    assert 1 * (a + b) + -(b as int) == a;
  }

  /** Adding b undoes subtracting b, even when the subtraction overflowed. */
  lemma AddUndoesSubtract(a: Int32, b: Int32)
    ensures Add(Some(Subtract(Some(a), Some(b)).value), Some(b)) == Ok(a)
  {
    var difference := Sub32(a, b);
    assert Subtract(Some(a), Some(b)) == Ok(difference);
    assert Add(Some(difference), Some(b)) == Ok(Wrap(difference + b));
    WrapInner(1, a - b, b);
    assert 1 * difference + b == difference + b;
    assert 1 * (a - b) + b == a;
  }

  /** Addition is commutative, including which arguments make it throw. */
  lemma AddCommutative(a: Option<Int32>, b: Option<Int32>)
    ensures Add(a, b) == Add(b, a)
  {
  }

  /** The addition overflows past MAX_VALUE to MIN_VALUE. */
  lemma AddWrapsAround()
    ensures Add(Some(MAX_INT), Some(1)) == Ok(MIN_INT)
  {
  }

  /**
   * `compareObjects(a, b)`, which is `a.compareTo(b)` for `Integer`s:
   * -1, 0 or 1 by the order of the unboxed values; a null on either side
   * throws NullPointerException.
   */
  function CompareObjects(a: Option<Int32>, b: Option<Int32>): (r: Result<int>)
    ensures r.Thrown? <==> a.None? || b.None?
    ensures r.Thrown? ==> r.exception == NullPointer()
    ensures r.Ok? ==> r.value in {-1, 0, 1}
    ensures r.Ok? ==> (r.value < 0 <==> a.value < b.value)
    ensures r.Ok? ==> (r.value == 0 <==> a.value == b.value)
    ensures r.Ok? ==> (r.value > 0 <==> a.value > b.value)
  {
    if a.None? || b.None? then Thrown(NullPointer())
    else if a.value < b.value then Ok(-1)
    else if a.value == b.value then Ok(0)
    else Ok(1)
  }

  /** Swapping the arguments negates the comparison. */
  lemma CompareAntisymmetric(a: Int32, b: Int32)
    ensures CompareObjects(Some(a), Some(b)).value == -CompareObjects(Some(b), Some(a)).value
  {
  }

  /**
   * The calls of `main`: a Box holds what was last set into it and is null
   * before, the Pair ("年龄", 25) returns its arguments, `add(5, 3)` is 8 and
   * `compareObjects(10, 20)` is negative.
   */
  method GenericDemo() returns (empty: Option<Int32>, intItem: Option<Int32>, stringItem: Option<string>,
                                key: string, value: Int32, sum: Result<Int32>, comparison: Result<int>)
    ensures empty == None && intItem == Some(10) && stringItem == Some("Hello泛型")
    ensures key == "年龄" && value == 25
    ensures sum == Ok(8) && comparison == Ok(-1)
  {
    var intBox := new Box<Int32>();
    empty := intBox.GetItem();
    intBox.SetItem(Some(10));
    intItem := intBox.GetItem();
    var stringBox := new Box<string>();
    stringBox.SetItem(Some("Hello泛型"));
    stringItem := stringBox.GetItem();
    var pair := new Pair<string, Int32>("年龄", 25);
    key := pair.GetKey();
    value := pair.GetValue();
    sum := Add(Some(5), Some(3));
    comparison := CompareObjects(Some(10), Some(20));
  }
}
