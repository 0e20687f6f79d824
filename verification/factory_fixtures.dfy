/**
  The cases of the factory tests: the fixture user, the outcome validate gives
  when one of its values is changed, and the exact text of each thrown error.
 */
module FactoryFixtures {
  import opened JsValues
  import opened TypeValidator
  import opened UserFactory

  /** The factory tests' fixture user: what both sides of each validation case start from. */
  predicate IsFixturePair(expected: Record, actual: Record, id: nat) {
    && expected == map[USERNAME := Str("username"), EMAIL := Str("email@email.com"), PASSWORD := Str("password")]
    && actual == expected[ID := Num(id)]
  }

  /** The fixture validates unless the drawn id is 0, which isNumber rejects. */
  lemma ValidateFixtureAccepts(expected: Record, actual: Record, id: nat)
    requires IsFixturePair(expected, actual, id)
    ensures Validate(actual, expected).Pass? <==> id != 0
    ensures id == 0 ==> Validate(actual, expected) == Fail(InvalidId(Num(0)))
  {
    AcceptedEmailExample();
    ValidateFirstFailure(actual, expected);
  }

  /** Changing one value of the fixture gives the mismatch error of that field. */
  lemma ValidateFixtureMismatches(expected: Record, actual: Record, id: nat)
    requires IsFixturePair(expected, actual, id) && id != 0
    ensures Validate(actual[USERNAME := Str("notUsername")], expected)
      == Fail(UsernameMismatch(Str("username"), Str("notUsername")))
    ensures Validate(actual[EMAIL := Str("notemail@email.com")], expected)
      == Fail(EmailMismatch(Str("email@email.com"), Str("notemail@email.com")))
    ensures Validate(actual[PASSWORD := Str("notPassword")], expected) == Fail(PasswordMismatch)
  {
    AcceptedEmailExample();
    AcceptedMismatchEmail();
    var username, email, password :=
      actual[USERNAME := Str("notUsername")], actual[EMAIL := Str("notemail@email.com")], actual[PASSWORD := Str("notPassword")];
    assert Get(username, EMAIL) == Str("email@email.com") && Get(password, EMAIL) == Str("email@email.com");
    ValidateFirstFailure(username, expected);
    ValidateFirstFailure(email, expected);
    ValidateFirstFailure(password, expected);
  }

  /** A number where a string belongs fails the type check; a string that is no address fails the format check. */
  lemma ValidateFixtureTypeErrors(expected: Record, actual: Record, id: nat)
    requires IsFixturePair(expected, actual, id) && id != 0
    ensures Validate(actual[EMAIL := Num(12312)], expected) == Fail(InvalidType(EMAIL, Num(12312)))
    ensures Validate(actual[EMAIL := Str("12313")], expected) == Fail(InvalidEmailFormat(Str("12313")))
    ensures Validate(actual[EMAIL := Str(".com@test")], expected) == Fail(InvalidEmailFormat(Str(".com@test")))
    ensures Validate(actual[PASSWORD := Num(123)], expected) == Fail(InvalidType(PASSWORD, Num(123)))
  {
    RejectedEmailExamples();
    ValidateFirstFailure(actual[EMAIL := Num(12312)], expected);
    ValidateFirstFailure(actual[EMAIL := Str("12313")], expected);
    ValidateFirstFailure(actual[EMAIL := Str(".com@test")], expected);
    ValidateFirstFailure(actual[PASSWORD := Num(123)], expected);
  }

  /** Numbers in messages are written in decimal, as the type-error tests expect. */
  lemma NumericMessages()
    ensures ToJsString(Num(12312)) == "12312"
    ensures ToJsString(Num(123)) == "123"
    ensures ToJsString(Num(0)) == "0"
  {
  }

  /** The text of the username mismatch the factory tests expect, with both values written out. */
  lemma UsernameMismatchText()
    ensures UsernameMismatch(Str("username"), Str("notUsername")).Message()
      == "Username mismatch. Expected: username, Actual: notUsername"
  {
    var head := "Username mismatch. Expected: " + "username" + ", Actual: ";
    assert head == "Username mismatch. Expected: username, Actual: ";
    assert head + "notUsername" == "Username mismatch. Expected: username, Actual: notUsername";
  }

  /** The text of the email mismatch the factory tests expect, with both values written out. */
  lemma EmailMismatchText()
    ensures EmailMismatch(Str("email@email.com"), Str("notemail@email.com")).Message()
      == "Email mismatch. Expected: email@email.com, Actual: notemail@email.com"
  {
    var head := "Email mismatch. Expected: " + "email@email.com" + ", Actual: ";
    assert head == "Email mismatch. Expected: email@email.com, Actual: ";
    assert head + "notemail@email.com" == "Email mismatch. Expected: email@email.com, Actual: notemail@email.com";
  }

  /** The texts of the type errors the factory tests expect: the field's name, then the number in decimal. */
  lemma InvalidTypeTexts()
    ensures InvalidType(EMAIL, Num(12312)).Message() == "Invalid email: 12312"
    ensures InvalidType(PASSWORD, Num(123)).Message() == "Invalid password: 123"
  {
    NumericMessages();
    assert "Invalid " + EMAIL + ": " + "12312" == "Invalid email: 12312";
    assert "Invalid " + PASSWORD + ": " + "123" == "Invalid password: 123";
  }

  /** The texts of the format errors the factory tests expect: the rejected string as it was given. */
  lemma InvalidFormatTexts()
    ensures InvalidEmailFormat(Str("12313")).Message() == "Invalid email format: 12313"
    ensures InvalidEmailFormat(Str(".com@test")).Message() == "Invalid email format: .com@test"
  {
  }

  /** The texts the factory tests expect when one value of the fixture is changed. */
  lemma FixtureMismatchMessages(expected: Record, actual: Record, id: nat)
    requires IsFixturePair(expected, actual, id) && id != 0
    ensures var r := Validate(actual[USERNAME := Str("notUsername")], expected);
      r.Fail? && r.error.Message() == "Username mismatch. Expected: username, Actual: notUsername"
    ensures var r := Validate(actual[EMAIL := Str("notemail@email.com")], expected);
      r.Fail? && r.error.Message() == "Email mismatch. Expected: email@email.com, Actual: notemail@email.com"
    ensures var r := Validate(actual[PASSWORD := Str("notPassword")], expected);
      r.Fail? && r.error.Message() == "Password mismatch."
  {
    ValidateFixtureMismatches(expected, actual, id);
    UsernameMismatchText();
    EmailMismatchText();
  }

  /** The texts the factory tests expect when a value of the fixture has the wrong type or format. */
  lemma FixtureTypeErrorMessages(expected: Record, actual: Record, id: nat)
    requires IsFixturePair(expected, actual, id) && id != 0
    ensures var r := Validate(actual[EMAIL := Num(12312)], expected);
      r.Fail? && r.error.Message() == "Invalid email: 12312"
    ensures var r := Validate(actual[EMAIL := Str("12313")], expected);
      r.Fail? && r.error.Message() == "Invalid email format: 12313"
    ensures var r := Validate(actual[EMAIL := Str(".com@test")], expected);
      r.Fail? && r.error.Message() == "Invalid email format: .com@test"
    ensures var r := Validate(actual[PASSWORD := Num(123)], expected);
      r.Fail? && r.error.Message() == "Invalid password: 123"
  {
    ValidateFixtureTypeErrors(expected, actual, id);
    InvalidTypeTexts();
    InvalidFormatTexts();
  }
}
