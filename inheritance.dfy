/**
 * Classes `Animal` and `Dog` of InheritanceExample.java: the inherited
 * fields with their getters and setters, and `Dog`'s `equals`/`hashCode`.
 * A `Dog` object holds its `Animal` part as a separate object, `animal`,
 * which stands for the fields `Dog` inherits.
 */
module Inheritance {
  import opened JavaLang

  class Animal {
    var name: Option<string>
    var age: Int32

    /** `new Animal(name, age)`. */
    constructor (name: Option<string>, age: Int32)
      ensures this.name == name && this.age == age
    {
      this.name, this.age := name, age;
    }

    method GetName() returns (r: Option<string>)
      ensures r == name
    {
      r := name;
    }

    /** `setName(name)`: stored without any check, null included. */
    method SetName(name: Option<string>)
      modifies this
      ensures this.name == name && age == old(age)
    {
      this.name := name;
    }

    method GetAge() returns (r: Int32)
      ensures r == age
    {
      r := age;
    }

    /** `setAge(age)`: stored without any check, negative ages included. */
    method SetAge(age: Int32)
      modifies this
      ensures this.age == age && name == old(name)
    {
      this.age := age;
    }
  }

  /** The three fields that `Dog.equals` and `Dog.hashCode` look at. */
  datatype DogFields = DogFields(name: Option<string>, age: Int32, breed: Option<string>)

  /** The argument of `equals(Object obj)`: null, a Dog, or an object of another class. */
  datatype Obj = NullRef | DogRef(dog: Dog) | OtherRef

  /**
   * The field comparison `age == dog.age && name.equals(dog.name) &&
   * breed.equals(dog.breed)`, evaluated left to right with short circuit:
   * a null name or breed on the receiver's side throws once it is reached,
   * a null on the argument's side only makes `String.equals` false.
   */
  function FieldsEqual(a: DogFields, b: DogFields): (r: Result<bool>)
    ensures r == Ok(true) <==> a == b && a.name.Some? && a.breed.Some?
    ensures r.Thrown? <==> a.age == b.age && (a.name.None? || (a.name == b.name && a.breed.None?))
    ensures r.Thrown? ==> r.exception == NullPointer()
  {
    if a.age != b.age then Ok(false)
    else if a.name.None? then Thrown(NullPointer())
    else if a.name != b.name then Ok(false)
    else if a.breed.None? then Thrown(NullPointer())
    else Ok(a.breed == b.breed)
  }

  /**
   * `hashCode()` as written: `result = name.hashCode(); result = 31 * result
   * + age; result = 31 * result + breed.hashCode();` with every operation
   * in `int` arithmetic.
   */
  function HashSteps(nameHash: Int32, age: Int32, breedHash: Int32): Int32
  {
    var result := nameHash;
    var result1 := Add32(Mul32(31, result), age);
    Add32(Mul32(31, result1), breedHash)
  }

  /** One hash step `31 * x + y` in `int` arithmetic is the single wrapped value. */
  lemma HashStep(x: Int32, y: Int32)
    ensures Add32(Mul32(31, x), y) == Wrap(31 * x + y)
  {
    WrapInner(1, 31 * x, y);
  }

  /** The step-by-step wrapped hash is the single wrapped value 961*h(name) + 31*age + h(breed). */
  lemma HashStepsClosedForm(nameHash: Int32, age: Int32, breedHash: Int32)
    ensures HashSteps(nameHash, age, breedHash) == Wrap(961 * nameHash + 31 * age + breedHash)
  {
    HashStep(nameHash, age);
    var inner := Wrap(31 * nameHash + age);
    HashStep(inner, breedHash);
    WrapInner(31, 31 * nameHash + age, breedHash);
    assert 31 * (31 * nameHash + age) + breedHash == 961 * nameHash + 31 * age + breedHash;
  }

  /** The hash of non-null fields: 961*h(name) + 31*age + h(breed) modulo 2^32, with h = `String.hashCode`. */
  function DogHash(name: string, age: Int32, breed: string): Int32
  {
    Wrap(961 * StringHash(name) + 31 * age + StringHash(breed))
  }

  /** `hashCode()` on the fields: a null name or breed throws NullPointerException. */
  function FieldsHash(f: DogFields): (r: Result<Int32>)
    ensures r.Thrown? <==> f.name.None? || f.breed.None?
    ensures r.Thrown? ==> r.exception == NullPointer()
    ensures r.Ok? ==> r.value == DogHash(f.name.value, f.age, f.breed.value)
  {
    match f.name
    case None => Thrown(NullPointer())
    case Some(n) =>
      match f.breed
      case None => Thrown(NullPointer())
      case Some(b) =>
        HashStepsClosedForm(StringHash(n), f.age, StringHash(b));
        Ok(HashSteps(StringHash(n), f.age, StringHash(b)))
  }

  /** The objects `Dog.equals(obj)` reads besides the receiver. */
  function ObjFrame(obj: Obj): set<object>
  {
    if obj.DogRef? then {obj.dog, obj.dog.animal} else {}
  }

  class Dog {
    const animal: Animal
    var breed: Option<string>

    /** `new Dog(name, age, breed)`: `super(name, age)`, then the breed. */
    constructor (name: Option<string>, age: Int32, breed: Option<string>)
      ensures fresh(animal)
      ensures animal.name == name && animal.age == age && this.breed == breed
    {
      animal := new Animal(name, age);
      this.breed := breed;
    }

    method GetBreed() returns (r: Option<string>)
      ensures r == breed
    {
      r := breed;
    }

    method SetBreed(breed: Option<string>)
      modifies this
      ensures this.breed == breed
    {
      this.breed := breed;
    }

    function Fields(): DogFields
      reads this, animal
    {
      DogFields(animal.name, animal.age, breed)
    }

    /**
     * `equals(Object obj)`: true for the same reference, false for null or
     * an object of another class, otherwise the field comparison.
     */
    function Equals(obj: Obj): (r: Result<bool>)
      reads this, animal, ObjFrame(obj)
      ensures obj == DogRef(this) ==> r == Ok(true)
      ensures obj.NullRef? || obj.OtherRef? ==> r == Ok(false)
      ensures r == Ok(true) <==>
                obj == DogRef(this) ||
                (obj.DogRef? && obj.dog.Fields() == Fields() && animal.name.Some? && breed.Some?)
      ensures r.Thrown? ==> obj.DogRef? && obj.dog != this && r.exception == NullPointer()
    {
      match obj
      case NullRef => Ok(false)
      case OtherRef => Ok(false)
      case DogRef(d) => if d == this then Ok(true) else FieldsEqual(Fields(), d.Fields())
    }

    /** `hashCode()`. */
    function HashCode(): (r: Result<Int32>)
      reads this, animal
      ensures r.Thrown? <==> animal.name.None? || breed.None?
      ensures r.Ok? ==> r.value == DogHash(animal.name.value, animal.age, breed.value)
    {
      FieldsHash(Fields())
    }
  }

  /** On the fields, a successful comparison is symmetric. */
  lemma FieldsEqualSymmetric(a: DogFields, b: DogFields)
    ensures FieldsEqual(a, b) == Ok(true) <==> FieldsEqual(b, a) == Ok(true)
  {
  }

  /** On the fields, a successful comparison is transitive. */
  lemma FieldsEqualTransitive(a: DogFields, b: DogFields, c: DogFields)
    requires FieldsEqual(a, b) == Ok(true) && FieldsEqual(b, c) == Ok(true)
    ensures FieldsEqual(a, c) == Ok(true)
  {
  }

  /**
   * With a null name the comparison is not symmetric: the Dog with the null
   * name throws, the other answers false.
   */
  lemma NullNameIsAsymmetric(age: Int32, other: string, breed: Option<string>)
    ensures FieldsEqual(DogFields(None, age, breed), DogFields(Some(other), age, breed)).Thrown?
    ensures FieldsEqual(DogFields(Some(other), age, breed), DogFields(None, age, breed)) == Ok(false)
  {
  }

  /** `equals` on Dogs: reflexive for every Dog, symmetric and transitive where it answers true. */
  lemma EqualsIsEquivalence(d: Dog, e: Dog, f: Dog)
    ensures d.Equals(DogRef(d)) == Ok(true)
    ensures d.Equals(DogRef(e)) == Ok(true) ==> e.Equals(DogRef(d)) == Ok(true)
    ensures d.Equals(DogRef(e)) == Ok(true) && e.Equals(DogRef(f)) == Ok(true) ==> d.Equals(DogRef(f)) == Ok(true)
  {
  }

  /** Dogs that `equals` calls equal have the same `hashCode` outcome, and it is a value. */
  lemma EqualDogsHaveEqualHashCodes(d: Dog, e: Dog)
    requires d.Equals(DogRef(e)) == Ok(true)
    ensures d.HashCode() == e.HashCode()
    ensures d != e ==> d.HashCode().Ok?
  {
  }

  /**
   * `main`: `dog` and `anotherDog`, both built as ("旺财", 3, "金毛"), are
   * distinct objects that `equals` calls equal, with the same hash code.
   */
  method EqualDogsDemo() returns (distinct: bool, equal: Result<bool>, hash1: Result<Int32>, hash2: Result<Int32>)
    ensures distinct && equal == Ok(true)
    ensures hash1.Ok? && hash1 == hash2
  {
    var dog := new Dog(Some("旺财"), 3, Some("金毛"));
    var anotherDog := new Dog(Some("旺财"), 3, Some("金毛"));
    distinct := dog != anotherDog;
    equal := dog.Equals(DogRef(anotherDog));
    hash1 := dog.HashCode();
    hash2 := anotherDog.HashCode();
  }
}
