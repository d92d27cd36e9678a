/**
 * Class `Person` of Person.java: three fields, three constructors, setters
 * that validate the age and the gender, and two queries.
 */
module People {
  import opened JavaLang

  const MALE: char := '男'
  const FEMALE: char := '女'
  const UNKNOWN: char := '未'

  /** The setter's acceptance rule for an age: 0..150 inclusive. */
  predicate ValidAge(age: int)
  {
    0 <= age <= 150
  }

  /** The gender wording `introduce` prints for a gender character. */
  function GenderLabel(gender: char): (text: string)
    ensures text == "男" <==> gender == MALE
    ensures text == "女" <==> gender == FEMALE
    ensures text == "未知" <==> gender != MALE && gender != FEMALE
  {
    if gender == MALE then "男" else if gender == FEMALE then "女" else "未知"
  }

  class Person {
    var name: Option<string>
    var age: Int32
    var gender: char

    /** `new Person()`: Java's default field values, null, 0 and '\u0000'. */
    constructor Default()
      ensures name == None && age == 0 && gender == '\0'
    {
      name, age, gender := None, 0, '\0';
    }

    /** `new Person(name, age, gender)`: stores its arguments without the setters' checks. */
    constructor (name: Option<string>, age: Int32, gender: char)
      ensures this.name == name && this.age == age && this.gender == gender
    {
      this.name, this.age, this.gender := name, age, gender;
    }

    /** `new Person(name, age)`: delegates with gender '未'. */
    constructor WithoutGender(name: Option<string>, age: Int32)
      ensures this.name == name && this.age == age && gender == UNKNOWN
    {
      this.name, this.age, gender := name, age, UNKNOWN;
    }

    /** The gender label chosen by `introduce()`. */
    function IntroduceGenderLabel(): (text: string)
      reads this
      ensures text == "未知" <==> gender != MALE && gender != FEMALE
    {
      GenderLabel(gender)
    }

    /** `isAdult()`. */
    function IsAdult(): (adult: bool)
      reads this
      ensures adult <==> age >= 18
    {
      age >= 18
    }

    method GetName() returns (r: Option<string>)
      ensures r == name
    {
      r := name;
    }

    method SetName(name: Option<string>)
      modifies this
      ensures this.name == name && age == old(age) && gender == old(gender)
    {
      this.name := name;
    }

    method GetAge() returns (r: Int32)
      ensures r == age
    {
      r := age;
    }

    /** `setAge(age)`: an age outside 0..150 is reported and ignored. */
    method SetAge(age: Int32)
      modifies this
      ensures ValidAge(age) ==> this.age == age
      ensures !ValidAge(age) ==> this.age == old(this.age)
      ensures old(ValidAge(this.age)) ==> ValidAge(this.age)
      ensures name == old(name) && gender == old(gender)
    {
      if 0 <= age && age <= 150 {
        this.age := age;
      }
    }

    method GetGender() returns (r: char)
      ensures r == gender
    {
      r := gender;
    }

    /** `setGender(gender)`: anything but '男' or '女' is replaced by '未'. */
    method SetGender(gender: char)
      modifies this
      ensures gender == MALE || gender == FEMALE ==> this.gender == gender
      ensures gender != MALE && gender != FEMALE ==> this.gender == UNKNOWN
      ensures name == old(name) && age == old(age)
    {
      if gender == MALE || gender == FEMALE {
        this.gender := gender;
      } else {
        this.gender := UNKNOWN;
      }
    }
  }

  /** The setter's replacement of an invalid gender does not change what `introduce` prints. */
  lemma SetterKeepsGenderLabel(gender: char)
    ensures GenderLabel(if gender == MALE || gender == FEMALE then gender else UNKNOWN) == GenderLabel(gender)
  {
  }

  /**
   * The calls of `main`: person1 built empty and filled by the setters,
   * person2 and person3 by the constructors, then setAge(200) on person1 and
   * setGender('X') on person3.
   */
  method PersonDemo() returns (age1: Int32, adult1: bool, adult2: bool, gender3: char, label1: string)
    ensures age1 == 25 && adult1 && !adult2
    ensures gender3 == UNKNOWN && label1 == "男"
  {
    var person1 := new Person.Default();
    person1.SetName(Some("张三"));
    person1.SetAge(25);
    person1.SetGender(MALE);
    label1 := person1.IntroduceGenderLabel();
    var person2 := new Person(Some("李四"), 17, FEMALE);
    var person3 := new Person.WithoutGender(Some("王五"), 30);
    adult1 := person1.IsAdult();
    adult2 := person2.IsAdult();
    person1.SetAge(200);
    age1 := person1.GetAge();
    person3.SetGender('X');
    gender3 := person3.GetGender();
  }
}
