/**
  The three static predicates of TypeValidator. `isNumber` and `isString`
  reject every falsy value before they look at the type; `isValidEmail`
  tests the pattern `^[^\s@]+@[^\s@]+\.[^\s@]+$`, modelled here by its
  structure: a local part, an `@`, a domain label, a `.` and a final label,
  none of them empty and none holding white space or `@`.
 */
module TypeValidator {
  import opened JsValues

  /** isNumber: a truthy value whose type is number and which is not NaN. */
  function IsNumber(v: Value): (r: bool)
    ensures !Truthy(v) ==> !r
    ensures r <==> v.Num? && v.n != 0
  {
    if !Truthy(v) then false else TypeOf(v) == "number" && !v.NaN?
  }

  /** isString: a truthy value whose type is string. */
  function IsString(v: Value): (r: bool)
    ensures !Truthy(v) ==> !r
    ensures r <==> v.Str? && v.s != ""
  {
    if !Truthy(v) then false else TypeOf(v) == "string"
  }

  /**
    The character class `\s` of a JavaScript regular expression (section 22.2.2.9
    of ECMA-262): the WhiteSpace and LineTerminator code points.
   */
  predicate IsSpace(c: char) {
    || c == '\t' || c == '\n' || c == '\U{000B}' || c == '\U{000C}' || c == '\r'
    || c == ' ' || c == '\U{00A0}' || c == '\U{1680}' || '\U{2000}' <= c <= '\U{200A}'
    || c == '\U{2028}' || c == '\U{2029}' || c == '\U{202F}' || c == '\U{205F}'
    || c == '\U{3000}' || c == '\U{FEFF}'
  }

  /** `[^\s@]+`: a non-empty run of characters that are neither white space nor `@`. */
  predicate Segment(s: string) {
    |s| > 0 && forall i | 0 <= i < |s| :: !IsSpace(s[i]) && s[i] != '@'
  }

  /** The email pattern as the regular expression reads: local part, `@`, label, `.`, label. */
  ghost predicate EmailPattern(s: string) {
    exists local, domain, tld ::
      Segment(local) && Segment(domain) && Segment(tld) && s == local + "@" + domain + "." + tld
  }

  /** `s` splits at index `at` (the `@`) and index `dot` (the `.`) into three segments. */
  predicate SplitsAt(s: string, at: nat, dot: nat)
    requires at < dot < |s|
  {
    s[at] == '@' && s[dot] == '.' && Segment(s[..at]) && Segment(s[at + 1..dot]) && Segment(s[dot + 1..])
  }

  /** Whether the regular expression finds a match in `s`: some choice of the two separators fits. */
  predicate MatchesEmail(s: string) {
    exists at: nat, dot: nat | at < dot < |s| :: SplitsAt(s, at, dot)
  }

  /** The index search decides exactly the pattern the regular expression describes. */
  lemma MatchesEmailIffPattern(s: string)
    ensures MatchesEmail(s) <==> EmailPattern(s)
  {
    if MatchesEmail(s) {
      var at: nat, dot: nat :| at < dot < |s| && SplitsAt(s, at, dot);
      var local, domain, tld := s[..at], s[at + 1..dot], s[dot + 1..];
      assert s == local + "@" + domain + "." + tld by {
        assert s == s[..at] + [s[at]] + s[at + 1..dot] + [s[dot]] + s[dot + 1..];
      }
    }
    if EmailPattern(s) {
      var local, domain, tld :|
        Segment(local) && Segment(domain) && Segment(tld) && s == local + "@" + domain + "." + tld;
      var at, dot := |local|, |local| + 1 + |domain|;
      assert s[..at] == local;
      assert s[at + 1..dot] == domain;
      assert s[dot + 1..] == tld;
      assert SplitsAt(s, at, dot);
    }
  }

  /** isValidEmail: a truthy string on which the pattern matches. */
  function IsValidEmail(v: Value): (r: bool)
    ensures r ==> IsString(v)
  {
    if !Truthy(v) || !IsString(v) then false else MatchesEmail(v.s)
  }

  /** isValidEmail holds exactly of the strings that have the shape the regular expression describes. */
  lemma IsValidEmailIffPattern(v: Value)
    ensures IsValidEmail(v) <==> v.Str? && EmailPattern(v.s)
  {
    if v.Str? {
      MatchesEmailIffPattern(v.s);
      if v.s == "" {
        assert !EmailPattern(v.s);
      }
    }
  }

  /** A matching address holds exactly one `@` and no white space at all. */
  lemma {:induction false} EmailHasOneAt(s: string)
    requires EmailPattern(s)
    ensures multiset(s)['@'] == 1
    ensures forall i | 0 <= i < |s| :: !IsSpace(s[i])
  {
    var local, domain, tld :|
      Segment(local) && Segment(domain) && Segment(tld) && s == local + "@" + domain + "." + tld;
    assert '@' !in local && '@' !in domain && '@' !in tld;
    assert multiset(s) == multiset(local) + multiset{'@'} + multiset(domain) + multiset{'.'} + multiset(tld);
    forall i | 0 <= i < |s|
      ensures !IsSpace(s[i])
    {
      if i < |local| {
        assert s[i] == local[i];
      } else if i == |local| {
      } else if i < |local| + 1 + |domain| {
        assert s[i] == domain[i - |local| - 1];
      } else if i == |local| + 1 + |domain| {
      } else {
        assert s[i] == tld[i - |local| - 2 - |domain|];
      }
    }
  }

  /**
    When `s` is `before + "@" + after` with no other `@`, a match needs a `.` after the `@`
    that is neither the first nor the last character there.
   */
  lemma AtFixesDomain(s: string, before: string, after: string)
    requires s == before + "@" + after && '@' !in before && '@' !in after
    requires MatchesEmail(s)
    ensures exists j | 0 < j < |after| - 1 :: after[j] == '.'
  {
    var at: nat, dot: nat :| at < dot < |s| && SplitsAt(s, at, dot);
    assert at == |before|;
    var j := dot - at - 1;
    assert after[j] == '.';
    assert 0 < j < |after| - 1;
  }

  /** Strings the factory tests reject: one without `@`, one whose only `.` precedes the `@`. */
  lemma RejectedEmailExamples()
    ensures !IsValidEmail(Str("12313"))
    ensures !IsValidEmail(Str(".com@test"))
  {
    if MatchesEmail(".com@test") {
      AtFixesDomain(".com@test", ".com", "test");
    }
  }

  /** The address of the factory tests' fixture user is accepted. */
  lemma AcceptedEmailExample()
    ensures IsValidEmail(Str("email@email.com"))
  {
    assert SplitsAt("email@email.com", 5, 11);
  }

  /** The changed address of the email-mismatch test is accepted too, so only the value check fails. */
  lemma AcceptedMismatchEmail()
    ensures IsValidEmail(Str("notemail@email.com"))
  {
    assert SplitsAt("notemail@email.com", 8, 14);
  }
}
