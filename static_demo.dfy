/**
 * StaticDemo.java: the static construction counter of `StaticDemo` and the
 * lazily created `Singleton`. Java keeps static fields in the class; here each
 * class's static fields live in one object that the callers share.
 */
module StaticMembers {
  import opened JavaLang

  /** The static part of class StaticDemo: `instanceCount`, 0 when the class is loaded. */
  class StaticDemoStatics {
    var instanceCount: Int32

    constructor ()
      ensures instanceCount == 0
    {
      instanceCount := 0;
    }

    /** `StaticDemo.getInstanceCount()`. */
    method GetInstanceCount() returns (count: Int32)
      ensures count == instanceCount
    {
      count := instanceCount;
    }
  }

  class StaticDemo {
    var name: Option<string>

    /**
     * `new StaticDemo(name)`: the instance initializer runs `instanceCount++`
     * (an `int`, so it wraps after 2^31 - 1), then the constructor stores name.
     */
    constructor (statics: StaticDemoStatics, name: Option<string>)
      modifies statics
      ensures statics.instanceCount == Add32(old(statics.instanceCount), 1)
      ensures this.name == name
    {
      statics.instanceCount := Add32(statics.instanceCount, 1);
      this.name := name;
    }
  }

  /** `main`: the count is 0 before any construction and 2 after two. */
  method InstanceCountDemo() returns (before: Int32, after: Int32)
    ensures before == 0 && after == 2
  {
    var statics := new StaticDemoStatics();
    before := statics.GetInstanceCount();
    var instance1 := new StaticDemo(statics, Some("实例1"));
    var instance2 := new StaticDemo(statics, Some("实例2"));
    after := statics.GetInstanceCount();
  }

  /** An instance of the lazily created singleton; its constructor is private. */
  class Singleton {
    var data: Option<string>

    constructor ()
      ensures data == None
    {
      data := None;
    }

    method GetData() returns (d: Option<string>)
      ensures d == data
    {
      d := data;
    }

    method SetData(data: Option<string>)
      modifies this
      ensures this.data == data
    {
      this.data := data;
    }
  }

  /**
   * The static part of class Singleton: `instance`, null until the first
   * `getInstance()`. The ghost field counts how often the private
   * constructor has run.
   */
  class SingletonStatics {
    var instance: Singleton?
    ghost var constructions: nat

    ghost predicate Valid()
      reads this
    {
      constructions <= 1 && (instance == null <==> constructions == 0)
    }

    constructor ()
      ensures Valid() && instance == null && constructions == 0
    {
      instance := null;
      constructions := 0;
    }

    /** `Singleton.getInstance()`: creates the instance on the first call only. */
    method GetInstance() returns (s: Singleton)
      requires Valid()
      modifies this
      ensures Valid()
      ensures instance == s
      ensures old(instance) != null ==> s == old(instance) && constructions == old(constructions)
      ensures old(instance) == null ==> fresh(s) && s.data == None && constructions == 1
    {
      if instance == null {
        instance := new Singleton();
        constructions := constructions + 1;
      }
      s := instance;
    }
  }

  /**
   * `main`: two getInstance calls give the same object, the constructor runs
   * once, and data set through one reference is read through the other.
   */
  method SingletonDemo() returns (same: bool, read: Option<string>)
    ensures same && read == Some("测试数据")
  {
    var statics := new SingletonStatics();
    var singleton1 := statics.GetInstance();
    var singleton2 := statics.GetInstance();
    assert statics.constructions == 1;
    same := singleton1 == singleton2;
    singleton1.SetData(Some("测试数据"));
    read := singleton2.GetData();
  }
}
