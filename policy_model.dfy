/**
 * The outcome of a policy evaluation: the well-known violation codes with
 * their wire names, the list of violations, whether the result is valid, and
 * how the result is displayed.
 */
module PolicyModel {
  import opened Results
  import opened Text

  /** A well-known policy code. */
  datatype Code =
    | UsernameTooShort
    | UsernameTooLong
    | UsernameInvalidChars
    | UsernameAllNumeric
    | UsernameBanned
    | UsernameNotAllowed
    | EmailDomainNotAllowed
    | EmailDomainBanned
    | EmailNotAllowed
    | EmailBanned

  /** `Code::as_str`. */
  function AsStr(c: Code): string
  {
    match c
    case UsernameTooShort => "username-too-short"
    case UsernameTooLong => "username-too-long"
    case UsernameInvalidChars => "username-invalid-chars"
    case UsernameAllNumeric => "username-all-numeric"
    case UsernameBanned => "username-banned"
    case UsernameNotAllowed => "username-not-allowed"
    case EmailDomainNotAllowed => "email-domain-not-allowed"
    case EmailDomainBanned => "email-domain-banned"
    case EmailNotAllowed => "email-not-allowed"
    case EmailBanned => "email-banned"
  }

  /**
   * Deserialising a code (`rename_all = "kebab-case"`): the wire name of each
   * variant is its identifier in lower case with `-` between the words.
   */
  function ParseCode(s: string): Option<Code>
  {
    match s
    case "username-too-short" => Some(UsernameTooShort)
    case "username-too-long" => Some(UsernameTooLong)
    case "username-invalid-chars" => Some(UsernameInvalidChars)
    case "username-all-numeric" => Some(UsernameAllNumeric)
    case "username-banned" => Some(UsernameBanned)
    case "username-not-allowed" => Some(UsernameNotAllowed)
    case "email-domain-not-allowed" => Some(EmailDomainNotAllowed)
    case "email-domain-banned" => Some(EmailDomainBanned)
    case "email-not-allowed" => Some(EmailNotAllowed)
    case "email-banned" => Some(EmailBanned)
    case _ => None
  }

  /** Parsing the string `as_str` gives back the same code. */
  lemma ParseAsStr(c: Code)
    ensures ParseCode(AsStr(c)) == Some(c)
  {
  }

  /** `as_str` is injective over the ten codes. */
  lemma AsStrInjective(c1: Code, c2: Code)
    ensures AsStr(c1) == AsStr(c2) ==> c1 == c2
  {
    ParseAsStr(c1);
    ParseAsStr(c2);
  }

  /** Every code has a wire name, and only the ten wire names parse. */
  lemma ParseOnlyWireNames(s: string)
    ensures ParseCode(s).Some? <==> exists c :: AsStr(c) == s
  {
    if ParseCode(s).Some? {
      ParseAsStr(ParseCode(s).value);
    }
  }

  /** A single violation of a policy. */
  datatype Violation = Violation(
    msg: string,
    redirectUri: Option<string>,
    field: Option<string>,
    code: Option<Code>)

  /** The result of a policy evaluation. */
  datatype EvaluationResult = EvaluationResult(violations: seq<Violation>)

  /** `valid()`: the evaluation passed, i.e. it reported no violation. */
  predicate Valid(r: EvaluationResult)
  {
    |r.violations| == 0
  }

  /** The messages of the violations, in order. */
  function Messages(vs: seq<Violation>): (ms: seq<string>)
    ensures |ms| == |vs|
    ensures forall i :: 0 <= i < |vs| ==> ms[i] == vs[i].msg
  {
    seq(|vs|, i requires 0 <= i < |vs| => vs[i].msg)
  }

  /** What `Display` writes: the messages in order, separated by ", ". */
  function DisplayText(r: EvaluationResult): string
  {
    Join(Messages(r.violations), ", ")
  }

  /** The `Display` implementation: one pass over the violations with a `first` flag. */
  method Display(r: EvaluationResult) returns (s: string)
    ensures s == DisplayText(r)
  {
    var first := true;
    s := "";
    var vs := r.violations;
    for i := 0 to |vs|
      invariant first <==> i == 0
      invariant s == Join(Messages(vs[..i]), ", ")
    {
      assert Messages(vs[..i + 1]) == Messages(vs[..i]) + [vs[i].msg];
      if first {
        first := false;
      } else {
        s := s + ", ";
        JoinSnoc(Messages(vs[..i]), vs[i].msg, ", ");
      }
      s := s + vs[i].msg;
    }
    assert vs[..|vs|] == vs;
  }

  /**
   * The displayed text is empty exactly when there is no violation, or a
   * single violation whose message is empty: an invalid result with an empty
   * message therefore displays as "" too.
   */
  lemma {:induction false} DisplayEmptyIff(r: EvaluationResult)
    ensures DisplayText(r) == "" <==>
              Valid(r) || (|r.violations| == 1 && r.violations[0].msg == "")
  {
    var ms := Messages(r.violations);
    if |ms| >= 2 {
      assert Join(ms, ", ") == ms[0] + ", " + Join(ms[1..], ", ");
      assert |Join(ms, ", ")| >= 2;
    }
  }

  /** Each message appears inside the displayed text, at its place in the order. */
  lemma DisplayListsMessages(r: EvaluationResult, i: nat)
    requires i < |r.violations|
    ensures var k := PartOffset(Messages(r.violations), ", ", i);
            OccursAt(DisplayText(r), r.violations[i].msg, k)
  {
    JoinHoldsPart(Messages(r.violations), ", ", i);
  }
}
