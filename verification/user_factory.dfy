/**
  The User factory: the four field-name constants, the constructors of user
  records (from explicit properties, or "generic" ones derived from one random
  number) and the two-phase validator that compares a returned user with the
  one that was sent.
 */
module UserFactory {
  import opened JsValues
  import opened TypeValidator

  const ID: string := "id"
  const USERNAME: string := "username"
  const EMAIL: string := "email"
  const PASSWORD: string := "password"

  /** The fields whose type the validator checks one after another, in this order. */
  const STRING_FIELDS: seq<string> := [USERNAME, EMAIL, PASSWORD]

  /** A plain JavaScript object, as its own enumerable properties. */
  type Record = map<string, Value>

  /** `obj[key]`: a property that is not there reads as undefined. */
  function Get(obj: Record, key: string): Value {
    if key in obj then obj[key] else Undefined
  }

  /** The field names are four different strings. */
  lemma FieldNamesDistinct()
    ensures |{ID, USERNAME, EMAIL, PASSWORD}| == 4
  {
  }

  /** An instance of class User: an object with no fields of its own until properties are assigned. */
  class User {
    var props: Record

    constructor ()
      ensures props == map[]
    {
      props := map[];
    }

    /** `Object.assign(this, source)`: every property of `source` is copied, overwriting one of the same name. */
    method Assign(source: Record)
      modifies this
      ensures props.Keys == old(props).Keys + source.Keys
      ensures forall k | k in source :: props[k] == source[k]
      ensures forall k | k in old(props) && k !in source :: props[k] == old(props)[k]
    {
      props := props + source;
    }
  }

  /** createUser: a fresh User holding exactly the given properties, with nothing added. */
  method CreateUser(props: Record := map[]) returns (user: User)
    ensures fresh(user)
    ensures user.props == props
  {
    user := new User();
    user.Assign(props);
  }

  /** createGenericUser with the random draw `r` passed in: three fields sharing the suffix `r`, and no id. */
  function CreateGenericUser(r: nat): (u: Record)
    ensures u.Keys == {USERNAME, EMAIL, PASSWORD}
  {
    var suffix := NatToDecimal(r);
    map[USERNAME := Str("user" + suffix),
        EMAIL := Str("user" + suffix + "@example.com"),
        PASSWORD := Str("password" + suffix)]
  }

  /**
    The shape the factory tests look for: a username `user` followed by digits, an
    email that is `user`, those digits and `@example.com`, a password `password`
    followed by the same digits, and no other field.
   */
  predicate IsGenericUser(u: Record) {
    && u.Keys == {USERNAME, EMAIL, PASSWORD}
    && u[USERNAME].Str? && |u[USERNAME].s| > 4 && u[USERNAME].s[..4] == "user"
    && var suffix := u[USERNAME].s[4..];
       && AllDigits(suffix)
       && u[EMAIL] == Str("user" + suffix + "@example.com")
       && u[PASSWORD] == Str("password" + suffix)
  }

  /** Every generic user has the shape the factory tests look for, and its three fields pass the validator's type checks. */
  lemma GenericUserIsWellFormed(r: nat)
    ensures IsGenericUser(CreateGenericUser(r))
    ensures IsString(CreateGenericUser(r)[USERNAME]) && IsString(CreateGenericUser(r)[PASSWORD])
    ensures IsValidEmail(CreateGenericUser(r)[EMAIL])
  {
    var suffix := NatToDecimal(r);
    var local := "user" + suffix;
    assert local[4..] == suffix;
    assert Segment(local) by {
      forall i | 0 <= i < |local|
        ensures !IsSpace(local[i]) && local[i] != '@'
      {
        if i >= 4 {
          assert local[i] == suffix[i - 4];
        }
      }
    }
    assert Segment("example") && Segment("com");
    assert local + "@example.com" == local + "@" + "example" + "." + "com";
    IsValidEmailIffPattern(Str(local + "@example.com"));
  }

  /** Two different draws give users that differ in every field. */
  lemma GenericUsersDiffer(r1: nat, r2: nat)
    requires r1 != r2
    ensures CreateGenericUser(r1)[USERNAME] != CreateGenericUser(r2)[USERNAME]
    ensures CreateGenericUser(r1)[EMAIL] != CreateGenericUser(r2)[EMAIL]
    ensures CreateGenericUser(r1)[PASSWORD] != CreateGenericUser(r2)[PASSWORD]
  {
    var d1, d2 := NatToDecimal(r1), NatToDecimal(r2);
    DecimalInjective(r1, r2);
    assert ("user" + d1)[4..] == d1 && ("user" + d2)[4..] == d2;
    assert ("password" + d1)[8..] == d1 && ("password" + d2)[8..] == d2;
    var e1, e2 := "user" + d1 + "@example.com", "user" + d2 + "@example.com";
    assert e1[4..|e1| - 12] == d1 && e2[4..|e2| - 12] == d2;
  }

  /** The digits shared by the three fields read back as the draw they were built from. */
  lemma GenericUserRecoversDraw(r: nat)
    ensures IsGenericUser(CreateGenericUser(r))
    ensures DecimalValue(CreateGenericUser(r)[USERNAME].s[4..]) == r
  {
    GenericUserIsWellFormed(r);
    assert CreateGenericUser(r)[USERNAME].s[4..] == NatToDecimal(r);
    DecimalRoundTrip(r);
  }

  /**
    generateGenericUsers: `count` generic users, the i-th built from the i-th random
    draw. A count of zero or less gives no user, as the `for` loop runs no iteration.
   */
  method GenerateGenericUsers(count: int, draws: seq<nat>) returns (users: seq<Record>)
    requires count <= |draws|
    ensures |users| == if count < 0 then 0 else count
    ensures forall i | 0 <= i < |users| :: users[i] == CreateGenericUser(draws[i])
    ensures forall i | 0 <= i < |users| :: IsGenericUser(users[i]) && IsValidEmail(users[i][EMAIL])
  {
    users := [];
    var i := 0;
    while i < count
      invariant 0 <= i <= (if count < 0 then 0 else count)
      invariant |users| == i
      invariant forall k | 0 <= k < i :: users[k] == CreateGenericUser(draws[k])
    {
      users := users + [CreateGenericUser(draws[i])];
      i := i + 1;
    }
    forall i | 0 <= i < |users|
      ensures IsGenericUser(users[i]) && IsValidEmail(users[i][EMAIL])
    {
      GenericUserIsWellFormed(draws[i]);
    }
  }

  /** `t` is the tail of `m`. */
  predicate EndsWith(m: string, t: string) {
    |t| <= |m| && m[|m| - |t|..] == t
  }

  /** `t` is the head of `m`. */
  predicate StartsWith(m: string, t: string) {
    |t| <= |m| && m[..|t|] == t
  }

  /**
    A message that names a value: its fixed head, then the value's text. The head never
    starts with `P`, which is what tells every such message apart from the fixed text
    `Password mismatch.`.
   */
  function ValueMessage(head: string, value: string): (m: string)
    requires |head| > 0 && head[0] != 'P'
    ensures StartsWith(m, head) && EndsWith(m, value)
    ensures m != "Password mismatch."
  {
    var m := head + value;
    assert m[0] == head[0];
    assert m[..|head|] == head && m[|m| - |value|..] == value;
    m
  }

  /** The errors validate throws, each with the message it carries. */
  datatype ValidationError =
    | InvalidId(id: Value)
    | InvalidType(key: string, value: Value)
    | InvalidEmailFormat(email: Value)
    | UsernameMismatch(expectedUsername: Value, actualUsername: Value)
    | EmailMismatch(expectedEmail: Value, actualEmail: Value)
    | PasswordMismatch
  {
    /** Only the password mismatch has a fixed text; every other message names the offending value. */
    function Message(): (m: string)
      ensures PasswordMismatch? <==> m == "Password mismatch."
      ensures InvalidId? ==> StartsWith(m, "Invalid ID: ") && EndsWith(m, ToJsString(id))
      ensures InvalidType? ==> StartsWith(m, "Invalid " + key + ": ") && EndsWith(m, ToJsString(value))
      ensures InvalidEmailFormat? ==> StartsWith(m, "Invalid email format: ") && EndsWith(m, ToJsString(email))
      ensures UsernameMismatch? ==>
        && StartsWith(m, "Username mismatch. Expected: " + ToJsString(expectedUsername) + ", Actual: ")
        && EndsWith(m, ToJsString(actualUsername))
      ensures EmailMismatch? ==>
        && StartsWith(m, "Email mismatch. Expected: " + ToJsString(expectedEmail) + ", Actual: ")
        && EndsWith(m, ToJsString(actualEmail))
    {
      match this
      case InvalidId(v) => ValueMessage("Invalid ID: ", ToJsString(v))
      case InvalidType(k, v) => ValueMessage("Invalid " + k + ": ", ToJsString(v))
      case InvalidEmailFormat(v) => ValueMessage("Invalid email format: ", ToJsString(v))
      case UsernameMismatch(e, a) => ValueMessage("Username mismatch. Expected: " + ToJsString(e) + ", Actual: ", ToJsString(a))
      case EmailMismatch(e, a) => ValueMessage("Email mismatch. Expected: " + ToJsString(e) + ", Actual: ", ToJsString(a))
      case PasswordMismatch => "Password mismatch."
    }
  }

  /** The `for` loop over the string fields: the first key whose value is not a string decides the error. */
  function CheckStrings(actual: Record, keys: seq<string>): (r: Outcome<ValidationError>)
    ensures r.Pass? <==> forall k | k in keys :: IsString(Get(actual, k))
    ensures r.Fail? ==>
      exists i | 0 <= i < |keys| ::
        && r.error == InvalidType(keys[i], Get(actual, keys[i]))
        && !IsString(Get(actual, keys[i]))
        && forall j | 0 <= j < i :: IsString(Get(actual, keys[j]))
    decreases |keys|
  {
    if keys == [] then Pass
    else if !IsString(Get(actual, keys[0])) then Fail(InvalidType(keys[0], Get(actual, keys[0])))
    else
      var rest := CheckStrings(actual, keys[1..]);
      if rest.Fail? then
        ghost var i :| 0 <= i < |keys| - 1 && rest.error == InvalidType(keys[1..][i], Get(actual, keys[1..][i]))
          && !IsString(Get(actual, keys[1..][i])) && forall j | 0 <= j < i :: IsString(Get(actual, keys[1..][j]));
        assert forall j | 0 <= j < i + 1 :: IsString(Get(actual, keys[j])) by {
          forall j | 0 <= j < i + 1 ensures IsString(Get(actual, keys[j])) {
            if j > 0 { assert keys[j] == keys[1..][j - 1]; }
          }
        }
        rest
      else
        rest
  }

  /** #validateTypes: id, then the three string fields in order, then the email format. */
  function ValidateTypes(actual: Record): (r: Outcome<ValidationError>)
    ensures r.Pass? <==>
      && IsNumber(Get(actual, ID))
      && IsString(Get(actual, USERNAME)) && IsString(Get(actual, EMAIL)) && IsString(Get(actual, PASSWORD))
      && IsValidEmail(Get(actual, EMAIL))
  {
    if !IsNumber(Get(actual, ID)) then Fail(InvalidId(Get(actual, ID)))
    else
      match CheckStrings(actual, STRING_FIELDS)
      case Fail(e) => Fail(e)
      case Pass =>
        if !IsValidEmail(Get(actual, EMAIL)) then Fail(InvalidEmailFormat(Get(actual, EMAIL)))
        else Pass
  }

  /** #validateValues: username, email and password must be strictly equal to the expected ones, in that order. */
  function ValidateValues(actual: Record, expected: Record): (r: Outcome<ValidationError>)
    ensures r.Pass? <==>
      && StrictEquals(Get(actual, USERNAME), Get(expected, USERNAME))
      && StrictEquals(Get(actual, EMAIL), Get(expected, EMAIL))
      && StrictEquals(Get(actual, PASSWORD), Get(expected, PASSWORD))
  {
    if !StrictEquals(Get(actual, USERNAME), Get(expected, USERNAME)) then
      Fail(UsernameMismatch(Get(expected, USERNAME), Get(actual, USERNAME)))
    else if !StrictEquals(Get(actual, EMAIL), Get(expected, EMAIL)) then
      Fail(EmailMismatch(Get(expected, EMAIL), Get(actual, EMAIL)))
    else if !StrictEquals(Get(actual, PASSWORD), Get(expected, PASSWORD)) then
      Fail(PasswordMismatch)
    else Pass
  }

  /** validate: the type phase, and only when it passes, the value phase. */
  function Validate(actual: Record, expected: Record): (r: Outcome<ValidationError>)
    ensures r.Pass? <==>
      && IsNumber(Get(actual, ID))
      && IsString(Get(actual, USERNAME)) && IsString(Get(actual, EMAIL)) && IsString(Get(actual, PASSWORD))
      && IsValidEmail(Get(actual, EMAIL))
      && Get(actual, USERNAME) == Get(expected, USERNAME)
      && Get(actual, EMAIL) == Get(expected, EMAIL)
      && Get(actual, PASSWORD) == Get(expected, PASSWORD)
  {
    match ValidateTypes(actual)
    case Fail(e) => Fail(e)
    case Pass => ValidateValues(actual, expected)
  }

  /** The first check that fails, in the fixed order, decides the error and its message. */
  lemma ValidateFirstFailure(actual: Record, expected: Record)
    ensures var id := Get(actual, ID);
      !IsNumber(id) ==> Validate(actual, expected) == Fail(InvalidId(id))
    ensures var u := Get(actual, USERNAME);
      IsNumber(Get(actual, ID)) && !IsString(u) ==>
      Validate(actual, expected) == Fail(InvalidType(USERNAME, u))
    ensures var e := Get(actual, EMAIL);
      IsNumber(Get(actual, ID)) && IsString(Get(actual, USERNAME)) && !IsString(e) ==>
      Validate(actual, expected) == Fail(InvalidType(EMAIL, e))
    ensures var p := Get(actual, PASSWORD);
      IsNumber(Get(actual, ID)) && IsString(Get(actual, USERNAME)) && IsString(Get(actual, EMAIL)) && !IsString(p) ==>
      Validate(actual, expected) == Fail(InvalidType(PASSWORD, p))
    ensures var e := Get(actual, EMAIL);
      IsNumber(Get(actual, ID)) && IsString(Get(actual, USERNAME)) && IsString(e) && IsString(Get(actual, PASSWORD))
      && !IsValidEmail(e) ==>
      Validate(actual, expected) == Fail(InvalidEmailFormat(e))
    ensures ValidateTypes(actual).Pass? && Get(actual, USERNAME) != Get(expected, USERNAME) ==>
      Validate(actual, expected) == Fail(UsernameMismatch(Get(expected, USERNAME), Get(actual, USERNAME)))
    ensures (ValidateTypes(actual).Pass? && Get(actual, USERNAME) == Get(expected, USERNAME)
             && Get(actual, EMAIL) != Get(expected, EMAIL)) ==>
      Validate(actual, expected) == Fail(EmailMismatch(Get(expected, EMAIL), Get(actual, EMAIL)))
    ensures (ValidateTypes(actual).Pass? && Get(actual, USERNAME) == Get(expected, USERNAME)
             && Get(actual, EMAIL) == Get(expected, EMAIL) && Get(actual, PASSWORD) != Get(expected, PASSWORD)) ==>
      Validate(actual, expected) == Fail(PasswordMismatch)
  {
    if IsNumber(Get(actual, ID)) {
      var r := CheckStrings(actual, STRING_FIELDS);
      if r.Fail? {
        var i :| 0 <= i < 3 && r.error == InvalidType(STRING_FIELDS[i], Get(actual, STRING_FIELDS[i]))
          && !IsString(Get(actual, STRING_FIELDS[i])) && forall j | 0 <= j < i :: IsString(Get(actual, STRING_FIELDS[j]));
        if i >= 1 { assert IsString(Get(actual, STRING_FIELDS[0])); }
        if i >= 2 { assert IsString(Get(actual, STRING_FIELDS[1])); }
      }
    }
  }

  /** The type loop reads only the listed keys of the record. */
  lemma {:induction false} CheckStringsReadsOnlyKeys(a: Record, b: Record, keys: seq<string>)
    requires forall k | k in keys :: Get(a, k) == Get(b, k)
    ensures CheckStrings(a, keys) == CheckStrings(b, keys)
    decreases |keys|
  {
    if keys != [] {
      CheckStringsReadsOnlyKeys(a, b, keys[1..]);
    }
  }

  /** Properties other than the four fields play no part in validation, on either side. */
  lemma ValidateIgnoresExtraKeys(actual: Record, expected: Record, key: string, value: Value)
    requires key !in {ID, USERNAME, EMAIL, PASSWORD}
    ensures Validate(actual[key := value], expected) == Validate(actual, expected)
    ensures Validate(actual, expected[key := value]) == Validate(actual, expected)
  {
    var widened := actual[key := value];
    assert Get(widened, ID) == Get(actual, ID);
    assert forall k | k in STRING_FIELDS :: Get(widened, k) == Get(actual, k);
    CheckStringsReadsOnlyKeys(widened, actual, STRING_FIELDS);
    assert ValidateTypes(widened) == ValidateTypes(actual);
    assert ValidateValues(widened, expected) == ValidateValues(actual, expected);
    assert forall k | k in STRING_FIELDS :: Get(expected[key := value], k) == Get(expected, k);
    assert ValidateValues(actual, expected[key := value]) == ValidateValues(actual, expected);
  }
}
