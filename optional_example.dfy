/**
 * The user e-mail lookups of OptionalExample.java over a
 * `Map<Integer, User>`: the traditional one that dereferences a null user,
 * the Optional one with a default, and the Optional chain of `main` with its
 * `filter` and `toUpperCase`.
 */
module OptionalExample {
  import opened JavaLang

  /** Class `User`: immutable, with getters only. */
  datatype User = User(id: Int32, name: Option<string>, email: Option<string>)

  /** The user table; a key that is absent is what `Map.get` answers null for. */
  type Users = map<Int32, User>

  /** `users.get(userId)`, wrapped by `Optional.ofNullable`. */
  function Lookup(users: Users, userId: Int32): (u: Option<User>)
    ensures u.Some? <==> userId in users
    ensures u.Some? ==> u.value == users[userId]
  {
    if userId in users then Some(users[userId]) else None
  }

  /** `Optional.map(f)`: empty stays empty, and a null result of f gives empty. */
  function MapOptional<A, B>(o: Option<A>, f: A -> Option<B>): Option<B>
  {
    match o
    case None => None
    case Some(v) => f(v)
  }

  /** `Optional.filter(p)`. */
  function FilterOptional<A>(o: Option<A>, p: A -> bool): Option<A>
  {
    match o
    case None => None
    case Some(v) => if p(v) then o else None
  }

  /** `Optional.orElse(other)`. */
  function OrElse<A>(o: Option<A>, other: A): A
  {
    match o
    case None => other
    case Some(v) => v
  }

  const NO_EMAIL: string := "用户不存在或邮箱未设置"
  const INVALID_EMAIL: string := "无效邮箱"

  /** `getUserEmailTraditional`: `users.get(userId).getEmail()`, NullPointerException for an absent user. */
  function GetUserEmailTraditional(users: Users, userId: Int32): (r: Result<Option<string>>)
    ensures r.Thrown? <==> userId !in users
    ensures r.Thrown? ==> r.exception.cls == NullPointerException
    ensures r.Ok? ==> r.value == users[userId].email
  {
    match Lookup(users, userId)
    case None => Thrown(NullPointer())
    case Some(user) => Ok(user.email)
  }

  /** `getUserEmailWithOptional`: the stored e-mail, or the default when the user or the e-mail is missing. */
  function GetUserEmailWithOptional(users: Users, userId: Int32): (r: string)
    ensures userId in users && users[userId].email.Some? ==> r == users[userId].email.value
    ensures userId !in users ==> r == NO_EMAIL
    ensures userId in users && users[userId].email.None? ==> r == NO_EMAIL
  {
    OrElse(MapOptional(Lookup(users, userId), (u: User) => u.email), NO_EMAIL)
  }

  /**
   * The two lookups agree wherever the traditional one yields an e-mail;
   * where it throws or yields null, the Optional one yields the default.
   */
  lemma LookupsAgree(users: Users, userId: Int32)
    ensures GetUserEmailTraditional(users, userId).Ok? && GetUserEmailTraditional(users, userId).value.Some? ==>
              GetUserEmailWithOptional(users, userId) == GetUserEmailTraditional(users, userId).value.value
    ensures GetUserEmailTraditional(users, userId).Thrown? || GetUserEmailTraditional(users, userId) == Ok(None) ==>
              GetUserEmailWithOptional(users, userId) == NO_EMAIL
  {
  }

  /** `Character.toUpperCase` on the ASCII letters; every other character is kept. */
  function UpperChar(c: char): (u: char)
    ensures 'a' <= c <= 'z' ==> u as int == c as int - 32
    ensures !('a' <= c <= 'z') ==> u == c
  {
    if 'a' <= c <= 'z' then (c as int - 32) as char else c
  }

  /** `String.toUpperCase()`, character by character. */
  function ToUpperCase(s: string): (r: string)
    ensures |r| == |s|
    ensures forall i :: 0 <= i < |s| ==> r[i] == UpperChar(s[i])
  {
    seq(|s|, i requires 0 <= i < |s| => UpperChar(s[i]))
  }

  /** Upper-casing neither adds nor removes an '@'. */
  lemma ToUpperCaseKeepsAt(s: string)
    ensures ContainsChar(ToUpperCase(s), '@') <==> ContainsChar(s, '@')
  {
    var r := ToUpperCase(s);
    if '@' in r {
      var i :| 0 <= i < |r| && r[i] == '@';
      assert s[i] == '@';
    }
    if '@' in s {
      var i :| 0 <= i < |s| && s[i] == '@';
      assert r[i] == '@';
    }
  }

  /**
   * The chain of `main`: `ofNullable(users.get(id)).map(User::getEmail)
   * .filter(e -> e.contains("@")).map(String::toUpperCase).orElse("无效邮箱")`.
   * The third chain's extra `e != null` test changes nothing, because
   * `map` already turned a null e-mail into an empty Optional.
   */
  function EmailChain(users: Users, userId: Int32): (r: string)
    ensures userId in users && users[userId].email.Some? && ContainsChar(users[userId].email.value, '@') ==>
              r == ToUpperCase(users[userId].email.value)
    ensures !(userId in users && users[userId].email.Some? && ContainsChar(users[userId].email.value, '@')) ==>
              r == INVALID_EMAIL
  {
    var email := MapOptional(Lookup(users, userId), (u: User) => u.email);
    var valid := FilterOptional(email, (e: string) => ContainsChar(e, '@'));
    OrElse(MapOptional(valid, (e: string) => Some(ToUpperCase(e))), INVALID_EMAIL)
  }

  /** The chain's result contains an '@' exactly when it is the valid e-mail, upper-cased. */
  lemma EmailChainHasAtIffValid(users: Users, userId: Int32)
    ensures ContainsChar(EmailChain(users, userId), '@') <==>
              userId in users && users[userId].email.Some? && ContainsChar(users[userId].email.value, '@')
  {
    if userId in users && users[userId].email.Some? {
      ToUpperCaseKeepsAt(users[userId].email.value);
    }
    assert !ContainsChar(INVALID_EMAIL, '@');
  }

  /** The users `main` puts in the map: 1 and 2 with e-mails, 4 with a null e-mail, none for 3. */
  function MainUsers(): Users
  {
    map[1 := User(1, Some("张三"), Some("zhangsan@example.com")),
        2 := User(2, Some("李四"), Some("lisi@example.com")),
        4 := User(4, Some("赵六"), None)]
  }

  /** The lookups `main` makes on users 1, 3 and 4. */
  lemma MainLookups()
    ensures GetUserEmailTraditional(MainUsers(), 1) == Ok(Some("zhangsan@example.com"))
    ensures GetUserEmailTraditional(MainUsers(), 3).Thrown?
    ensures GetUserEmailWithOptional(MainUsers(), 1) == "zhangsan@example.com"
    ensures GetUserEmailWithOptional(MainUsers(), 3) == NO_EMAIL
    ensures GetUserEmailWithOptional(MainUsers(), 4) == NO_EMAIL
    ensures EmailChain(MainUsers(), 1) == "ZHANGSAN@EXAMPLE.COM"
    ensures EmailChain(MainUsers(), 3) == INVALID_EMAIL && EmailChain(MainUsers(), 4) == INVALID_EMAIL
  {
    var users := MainUsers();
    assert 3 !in users;
    assert ContainsChar("zhangsan@example.com", '@') by {
      assert "zhangsan@example.com"[8] == '@';
    }
    UpperCaseExample();
  }

  /** Upper-casing user 1's e-mail. */
  lemma UpperCaseExample()
    ensures ToUpperCase("zhangsan@example.com") == "ZHANGSAN@EXAMPLE.COM"
  {
    UpperCaseLocalPart();
    UpperCaseDomainPart();
    ToUpperCaseAppend("zhangsan@", "example.com");
    assert "zhangsan@" + "example.com" == "zhangsan@example.com";
  }

  lemma UpperCaseLocalPart()
    ensures ToUpperCase("zhangsan@") == "ZHANGSAN@"
  {
  }

  lemma UpperCaseDomainPart()
    ensures ToUpperCase("example.com") == "EXAMPLE.COM"
  {
  }

  /** Upper-casing works piece by piece. */
  lemma ToUpperCaseAppend(s: string, t: string)
    ensures ToUpperCase(s + t) == ToUpperCase(s) + ToUpperCase(t)
  {
    var whole, pieces := ToUpperCase(s + t), ToUpperCase(s) + ToUpperCase(t);
    forall i | 0 <= i < |whole|
      ensures whole[i] == pieces[i]
    {
      if i < |s| {
        assert (s + t)[i] == s[i];
      } else {
        assert (s + t)[i] == t[i - |s|];
      }
    }
  }
}
