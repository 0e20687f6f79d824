# User fixtures, validators and mock responses of the create-user API test plan

This Dafny project models the small logic layer behind the test plan of a
"create user" REST endpoint:

- **TypeValidator** (`type_validator.dfy`): `isNumber`, `isString` and
  `isValidEmail`. The first two reject every falsy JavaScript value before
  they check the type. `isValidEmail` is modelled by the structure of its
  regular expression `^[^\s@]+@[^\s@]+\.[^\s@]+$`: a local part, `@`, a label,
  `.`, a label, each non-empty and free of white space and `@`.
- **User factory** (`user_factory.dfy`): the field names `id`, `username`,
  `email` and `password`; `createUser` (a fresh `User` object that
  `Object.assign` fills, modelled as a class whose property map is updated in
  place); `createGenericUser` and the loop of `generateGenericUsers`; and
  `validate`, a type phase followed by a value phase whose first failing check
  decides the error.
- **Response builder** (`user_responses.dfy`): the 201 envelope of
  `mockPostUserSuccess`, and `buildMockError`, which sends 4xx and 5xx codes
  to two tables of defaults and throws for any other code. `buildError`
  applies the `||` fallbacks: a truthy custom message wins, then the table's
  text, then `Unknown Error` / `Unknown error`.

- **Factory test cases** (`factory_fixtures.dfy`): the fixture user of the
  factory tests, the error `validate` gives when one of its values is changed,
  and the exact text of each of those errors.

`js_values.dfy` holds the JavaScript semantics these rely on: a `Value`
datatype (`Undefined | Null | Bool | Num(int) | NaN | Str`), truthiness, `||`,
`typeof`, strict equality (NaN is not equal to itself) and the decimal text of
a number in a template literal. A thrown error is an `Outcome`/`Result` that
carries a structured error, and each error type has a `Message()` that gives
the exact text the source throws.

The random draws of `Math.random` are passed in as parameters: `r` for
`createGenericUser`, one draw per user for `generateGenericUsers`, and the id
for `mockPostUserSuccess`.

Notes on the code as written:

- `tests/users/utils/userResponses.js:8-11` reads `User.FIELDS.ID` and the
  like. The `User` class in `tests/users/utils/userFactory.js` has no `FIELDS`
  property, only `User.ID` and the rest at lines 4-7, so as the files stand
  every call of `mockPostUserSuccess` throws a TypeError. The model does not
  follow the code here: `MockPostUserSuccess` builds the envelope the author
  evidently meant, keyed by the constants at `userFactory.js:4-7` (see
  "## Left out").
- `tests/users/addUser.test.js:17` calls `User.getSchema('v1')`, which
  `userFactory.js` does not define. Schema versions, version dispatch and
  `getSchema` are therefore not modelled.
- `createUser` copies exactly the given properties and adds none of its own
  (`CreateUser` ensures `user.props == props`).
- A drawn id of 0 makes `validate` throw `Invalid ID: 0`, because `isNumber`
  rejects falsy values. The round-trip lemmas therefore hold only for a
  non-zero id, and the fixture test at `userFactory.test.js:82-86` passes only
  for a non-zero draw (`FactoryFixtures.ValidateFixtureAccepts`).
- `buildError` writes `customMessage || defaults[status]?.data?.error || 'Unknown error'`,
  which JavaScript groups to the left; `JsValues.OrAssociative` shows that the
  grouping does not matter.

## Model

| member | source | states |
|---|---|---|
| `JsValues.Or` | tests/users/utils/userResponses.js:50-52 | the logical-or operator yields one of its operands, and its result is truthy iff either operand is |
| `JsValues.OrAssociative` | tests/users/utils/userResponses.js:52 | a chain of logical-or operators gives the same value whichever way it is grouped |
| `JsValues.NatToDecimal` | tests/users/utils/userFactory.js:16-21 | the text of a number in a template literal is a non-empty run of decimal digits with no leading zero |
| `JsValues.DecimalRoundTrip` | tests/users/utils/userFactory.js:18-20 | reading back the decimal digits of `n` gives `n` |
| `JsValues.DecimalInjective` | tests/users/utils/userFactory.js:18-20 | different numbers are written with different digits |
| `TypeValidator.IsNumber` | tests/utils/typeValidator.js:2-5 | false for every falsy value; true exactly for a non-zero number that is not NaN, so `"5"` is rejected |
| `TypeValidator.IsString` | tests/utils/typeValidator.js:7-10 | false for every falsy value; true exactly for a non-empty string |
| `TypeValidator.IsValidEmail` | tests/utils/typeValidator.js:12-17 | an accepted value is always a string that `isString` accepts |
| `TypeValidator.MatchesEmailIffPattern` | tests/utils/typeValidator.js:15-16 | the index search for `@` and `.` accepts exactly the strings `L@A.B` with `L`, `A` and `B` non-empty and free of white space and `@` |
| `TypeValidator.IsValidEmailIffPattern` | tests/utils/typeValidator.js:12-17 | `isValidEmail(v)` holds iff `v` is a string of the form `L@A.B` |
| `TypeValidator.EmailHasOneAt` | tests/utils/typeValidator.js:15 | a matching address holds exactly one `@` and no white space |
| `TypeValidator.AtFixesDomain` | tests/utils/typeValidator.js:15 | when the only `@` splits `s` into a prefix and a suffix, a match needs a `.` strictly inside the suffix |
| `TypeValidator.RejectedEmailExamples` | tests/users/utils/userFactory.test.js:133-141 | `"12313"` and `".com@test"` are rejected |
| `TypeValidator.AcceptedEmailExample` | tests/users/utils/userFactory.test.js:72-76 | `"email@email.com"` is accepted |
| `TypeValidator.AcceptedMismatchEmail` | tests/users/utils/userFactory.test.js:98-106 | `"notemail@email.com"` is accepted, so that test fails on the value and not on the format |
| `UserFactory.FieldNamesDistinct` | tests/users/utils/userFactory.js:4-7 | the four field names are different strings |
| `UserFactory.User.constructor` | tests/users/utils/userFactory.js:10 | a new `User` has no properties of its own |
| `UserFactory.User.Assign` | tests/users/utils/userFactory.js:11 | `Object.assign` adds every source key, takes the source's value for it, and keeps every other property |
| `UserFactory.CreateUser` | tests/users/utils/userFactory.js:9-13 | a fresh object with exactly the given keys and values, and none when no properties are given |
| `UserFactory.CreateGenericUser` | tests/users/utils/userFactory.js:15-22 | a generic user has exactly the keys username, email and password, and no id |
| `UserFactory.GenericUserIsWellFormed` | tests/users/utils/userFactory.test.js:16-29 | username is `user` plus digits, email is `user` plus the same digits plus `@example.com`, password is `password` plus the same digits, and the email passes `isValidEmail` |
| `UserFactory.GenericUsersDiffer` | tests/users/utils/userFactory.js:15-22 | two different draws give users that differ in all three fields |
| `UserFactory.GenericUserRecoversDraw` | tests/users/utils/userFactory.js:16-21 | the digits after `user` in a generic username read back as the draw they came from |
| `UserFactory.GenerateGenericUsers` | tests/users/utils/userFactory.js:24-31 | returns `count` users, or none for a count of zero or less; the i-th is the generic user of the i-th draw, has the generic shape and a valid email |
| `UserFactory.ValidationError.Message` | tests/users/utils/userFactory.js:39-68 | only the password mismatch has the fixed text `Password mismatch.`; every other message starts with its check's fixed text (for a mismatch, including the expected value) and ends with the text of the offending value |
| `UserFactory.CheckStrings` | tests/users/utils/userFactory.js:42-46 | passes iff every listed key holds a non-empty string; otherwise it fails on the first key that does not, carrying that key and its value |
| `UserFactory.CheckStringsReadsOnlyKeys` | tests/users/utils/userFactory.js:42-46 | the type loop depends only on the values of the listed keys |
| `UserFactory.ValidateTypes` | tests/users/utils/userFactory.js:38-50 | the type phase passes iff the id passes `isNumber`, the three fields pass `isString` and the email passes `isValidEmail` |
| `UserFactory.ValidateValues` | tests/users/utils/userFactory.js:52-70 | the value phase passes iff username, email and password are each strictly equal to the expected ones |
| `UserFactory.Validate` | tests/users/utils/userFactory.js:33-36 | `validate` succeeds iff every type check holds and the three fields equal the expected ones |
| `UserFactory.ValidateFirstFailure` | tests/users/utils/userFactory.js:38-69 | the error is decided by the first failing check, in this order: id, then the username, email and password types, then the email format, then the username, email and password values |
| `UserFactory.ValidateIgnoresExtraKeys` | tests/users/utils/userFactory.js:33-70 | a property outside the four fields changes nothing, on the actual side or on the expected side |
| `FactoryFixtures.ValidateFixtureAccepts` | tests/users/utils/userFactory.test.js:68-86 | the fixture pair validates iff the drawn id is not 0; a 0 id fails with `Invalid ID` |
| `FactoryFixtures.ValidateFixtureMismatches` | tests/users/utils/userFactory.test.js:88-114 | a changed username, email or password gives that field's mismatch error; the username and email errors carry the expected and actual values, the password error carries none |
| `FactoryFixtures.ValidateFixtureTypeErrors` | tests/users/utils/userFactory.test.js:126-150 | email `12312` gives `Invalid email`, not a format error; `"12313"` and `".com@test"` give `Invalid email format`; password `123` gives `Invalid password` |
| `FactoryFixtures.NumericMessages` | tests/users/utils/userFactory.test.js:126-131 | numbers appear in messages in decimal (`12312`, `123`, `0`) |
| `FactoryFixtures.UsernameMismatchText` | tests/users/utils/userFactory.test.js:88-96 | the username mismatch of the fixture reads `Username mismatch. Expected: username, Actual: notUsername` |
| `FactoryFixtures.EmailMismatchText` | tests/users/utils/userFactory.test.js:98-106 | the email mismatch of the fixture reads `Email mismatch. Expected: email@email.com, Actual: notemail@email.com` |
| `FactoryFixtures.InvalidTypeTexts` | tests/users/utils/userFactory.test.js:126-150 | the type errors read `Invalid email: 12312` and `Invalid password: 123` |
| `FactoryFixtures.InvalidFormatTexts` | tests/users/utils/userFactory.test.js:132-141 | the format errors read `Invalid email format: 12313` and `Invalid email format: .com@test` |
| `FactoryFixtures.FixtureMismatchMessages` | tests/users/utils/userFactory.test.js:88-114 | validating the fixture with a changed username, email or password throws exactly the text the test expects |
| `FactoryFixtures.FixtureTypeErrorMessages` | tests/users/utils/userFactory.test.js:126-150 | validating the fixture with a wrong-typed or malformed email or password throws exactly the text the test expects |
| `UserResponses.MockPostUserSuccess` | tests/users/utils/userResponses.js:3-14 | status 201 and `Created`; the body has exactly the four field keys, the given id and the user's three fields |
| `UserResponses.SuccessKeyCount` | tests/users/addUser.test.js:57-88 | the success body has four properties, and five once the server adds one of its own |
| `UserResponses.BuildError` | tests/users/utils/userResponses.js:47-55 | keeps the status; the body has only `error`; the status text is the table's text or `Unknown Error`; the error is a truthy custom message, else the table's text, else `Unknown error` |
| `UserResponses.MockClientError` | tests/users/utils/userResponses.js:22-33 | keeps the status, and the body has only `error` |
| `UserResponses.MockServerError` | tests/users/utils/userResponses.js:35-45 | keeps the status, and the body has only `error` |
| `UserResponses.BuildMockError` | tests/users/utils/userResponses.js:16-20 | throws `Unsupported status code for mockError`, the same text whatever the code, iff the code is below 400 or at least 600; otherwise the status is kept, the body has exactly the key `error`, and the status text is a non-empty string |
| `UserResponses.ClientErrorDefaults` | tests/users/utils/userResponses.js:22-31 | 400, 401, 403 and 404 give their table's status text and error text |
| `UserResponses.ServerErrorDefaults` | tests/users/utils/userResponses.js:35-44 | 500, 502 and 503 all give `Server error`, with three different status texts |
| `UserResponses.UnknownStatusDefaults` | tests/users/utils/userResponses.js:47-54 | an in-range code missing from the tables gives `Unknown Error` and `Unknown error` |
| `UserResponses.CustomMessageReplacesError` | tests/users/utils/userResponses.js:47-54 | a truthy custom message replaces the error text and leaves status and status text unchanged |
| `UserResponses.FalsyMessageFallsBack` | tests/users/utils/userResponses.js:52 | a falsy custom message, such as the empty string, gives the same response as no message |
| `UserResponses.SuccessDropsExtraProperties` | tests/users/addUser.test.js:57-72 | an extra property of the sent user does not reach the response |
| `UserResponses.SuccessRoundTrip` | tests/users/addUser.test.js:90-102 | the success body validates against the sent user iff the id is non-zero and the user's three fields pass the type phase |
| `UserResponses.GenericUserRoundTrip` | tests/users/addUser.test.js:90-102 | for a generic user the round trip succeeds iff the drawn id is non-zero |
| `UserResponses.RoundTripWithExtraProperties` | tests/users/addUser.test.js:57-88 | an extra property on the sent user or on the response body does not change the round trip's outcome |

## Left out

- UserResponses.MockPostUserSuccess: models the envelope `mockPostUserSuccess` evidently intends, not the code as written. As written, `tests/users/utils/userResponses.js:8-11` reads `User.FIELDS`, which is undefined, so every call throws a TypeError before any envelope is built.
- Schema versions, `getSchema` and version dispatch: `tests/users/utils/userFactory.js` does not define them.
- `tests/users/utils/userApiClient.js` is not part of this model. It is a thin asynchronous wrapper over an HTTP library whose source is not available.
- `tests/users/localServer/server.js` is not part of this model. It is HTTP routing, logging and an unsynchronised in-memory list.
- The Jest tests themselves, their mocks and the timing-based performance tests serve only as sources of properties.
- `Math.random`: each draw is a parameter. The uniqueness of 100 generated users is only probabilistic and is not stated; `GenericUsersDiffer` states the deterministic part, that different draws give different users.
- JavaScript numbers are integers plus a NaN tag. Fractions, infinities, `-0` and the exponent notation of numbers of 10^21 and above are not modelled.
- Objects and arrays as field values: a `Value` is a primitive, so messages never show `[object Object]`.
- JavaScript strings are modelled as sequences of Unicode code points, not UTF-16 code units. Every character of `\s` lies in the Basic Multilingual Plane, so the email pattern does not depend on the difference.
- `validate` in the source throws and returns nothing. The model returns `Pass` or `Fail(error)`, and `Message()` gives the error's text.
- A status code or message of another type (a string status, a numeric message) is modelled only as far as `Value` reaches. Status codes are integers.
