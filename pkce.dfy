/**
 * Proof Key for Code Exchange (RFC 7636): validation of code verifiers,
 * computation of code challenges with the `plain` and `S256` methods, and
 * the server-side check that a verifier matches the stored challenge.
 *
 * The verifier is a byte sequence because the length rule counts bytes.
 * SHA-256 followed by unpadded base64url encoding is not modelled; it is the
 * parameter `s256` wherever a challenge is computed.
 */
module Pkce {
  import opened Results

  newtype byte = x: int | 0 <= x < 256

  datatype CodeChallengeError =
    | TooShort
    | TooLong
    | InvalidCharacters
    | VerificationFailed
    | UnknownChallengeMethod

  /** The IANA registry of challenge methods; values other than the two known ones are kept. */
  datatype CodeChallengeMethod = Plain | S256 | Unknown(name: string)

  const MinVerifierLength: nat := 43
  const MaxVerifierLength: nat := 128

  /** The ASCII characters from `lo` to `hi` inclusive, in order. */
  function CharRange(lo: char, hi: char): (r: string)
    requires lo <= hi < 128 as char
    ensures forall c :: c in r <==> lo <= c <= hi
  {
    var r := seq(hi as int - lo as int + 1, i requires 0 <= i <= hi as int - lo as int => (lo as int + i) as char);
    CharRangeCovers(lo, hi, r);
    r
  }

  lemma CharRangeCovers(lo: char, hi: char, r: string)
    requires lo <= hi < 128 as char && |r| == hi as int - lo as int + 1
    requires forall i :: 0 <= i < |r| ==> r[i] == (lo as int + i) as char
    ensures forall c :: lo <= c <= hi ==> c in r
  {
    forall c | lo <= c <= hi ensures c in r {
      assert r[c as int - lo as int] == c;
    }
  }

  /** `unreserved = ALPHA / DIGIT / "-" / "." / "_" / "~"` (section 4.1 of RFC 7636). */
  const Unreserved: string := CharRange('A', 'Z') + CharRange('a', 'z') + CharRange('0', '9') + "-._~"

  /** The character a single byte stands for. */
  function AsChar(b: byte): char
  {
    (b as int) as char
  }

  /** The string a byte sequence stands for, one character per byte. */
  function AsString(v: seq<byte>): (s: string)
    ensures |s| == |v|
  {
    seq(|v|, i requires 0 <= i < |v| => AsChar(v[i]))
  }

  /**
   * The source's per-character test: `is_ascii_alphanumeric` or one of `-._~`.
   * A character outside ASCII is encoded by bytes of value 128 or more, none
   * of which passes, so testing each byte rejects exactly the same verifiers
   * as testing each character.
   */
  predicate IsVerifierByte(b: byte)
  {
    var c := AsChar(b);
    ('a' <= c <= 'z') || ('A' <= c <= 'Z') || ('0' <= c <= '9')
    || c == '-' || c == '.' || c == '_' || c == '~'
  }

  /** The byte test accepts exactly the unreserved characters of the RFC. */
  lemma VerifierByteIsUnreserved(b: byte)
    ensures IsVerifierByte(b) <==> AsChar(b) in Unreserved
  {
    var c := AsChar(b);
    var upper, lower, digit := CharRange('A', 'Z'), CharRange('a', 'z'), CharRange('0', '9');
    assert Unreserved == upper + lower + digit + "-._~";
    assert c in Unreserved <==> c in upper || c in lower || c in digit || c in "-._~";
  }

  /** `code-verifier = 43*128unreserved` (section 4.1 of RFC 7636). */
  ghost predicate ValidVerifier(v: seq<byte>)
  {
    MinVerifierLength <= |v| <= MaxVerifierLength
    && forall i :: 0 <= i < |v| ==> AsChar(v[i]) in Unreserved
  }

  /** `validate_verifier`: length first (too short, then too long), then the characters. */
  function ValidateVerifier(v: seq<byte>): (r: Result<(), CodeChallengeError>)
    ensures r == Err(TooShort) <==> |v| < MinVerifierLength
    ensures r == Err(TooLong) <==> |v| > MaxVerifierLength
    ensures r == Err(InvalidCharacters) <==>
              MinVerifierLength <= |v| <= MaxVerifierLength
              && exists i :: 0 <= i < |v| && AsChar(v[i]) !in Unreserved
    ensures r.Ok? <==> ValidVerifier(v)
  {
    if |v| < MinVerifierLength then Err(TooShort)
    else if |v| > MaxVerifierLength then Err(TooLong)
    else if !(forall i :: 0 <= i < |v| ==> IsVerifierByte(v[i])) then
      ValidateCharactersFails(v);
      Err(InvalidCharacters)
    else
      ValidateCharactersPass(v);
      Ok(())
  }

  lemma ValidateCharactersFails(v: seq<byte>)
    requires !(forall i :: 0 <= i < |v| ==> IsVerifierByte(v[i]))
    ensures exists i :: 0 <= i < |v| && AsChar(v[i]) !in Unreserved
  {
    var i :| 0 <= i < |v| && !IsVerifierByte(v[i]);
    VerifierByteIsUnreserved(v[i]);
  }

  lemma ValidateCharactersPass(v: seq<byte>)
    requires forall i :: 0 <= i < |v| ==> IsVerifierByte(v[i])
    ensures forall i :: 0 <= i < |v| ==> AsChar(v[i]) in Unreserved
  {
    forall i | 0 <= i < |v| ensures AsChar(v[i]) in Unreserved {
      VerifierByteIsUnreserved(v[i]);
    }
  }

  /** The method is one the server can compute. */
  predicate IsKnown(m: CodeChallengeMethod)
  {
    m.Plain? || m.S256?
  }

  /**
   * The transforms of section 4.2 of RFC 7636: `plain` is the identity and
   * `S256` is `BASE64URL-ENCODE(SHA256(ASCII(code_verifier)))`.
   */
  ghost function Transform(m: CodeChallengeMethod, v: seq<byte>, s256: seq<byte> -> string): string
    requires IsKnown(m)
  {
    if m.Plain? then AsString(v) else s256(v)
  }

  /**
   * `compute_challenge`: the verifier is validated before the method is
   * looked at, so no method (not even an unknown one) turns an invalid
   * verifier into anything but its validation error.
   */
  function ComputeChallenge(m: CodeChallengeMethod, v: seq<byte>, s256: seq<byte> -> string)
    : (r: Result<string, CodeChallengeError>)
    ensures !ValidVerifier(v) ==> r == Err(ValidateVerifier(v).error)
    ensures r.Ok? ==> ValidVerifier(v) && IsKnown(m) && r.value == Transform(m, v, s256)
    ensures r == Err(UnknownChallengeMethod) <==> ValidVerifier(v) && !IsKnown(m)
    ensures ValidVerifier(v) && IsKnown(m) ==> r.Ok?
  {
    match ValidateVerifier(v)
    case Err(e) => Err(e)
    case Ok(_) =>
      match m
      case Plain => Ok(AsString(v))
      case S256 => Ok(s256(v))
      case Unknown(_) => Err(UnknownChallengeMethod)
  }

  /**
   * `verify` (the check of section 4.6 of RFC 7636): accepted exactly when the
   * verifier is valid, the method is known and the transformed verifier equals
   * the challenge; `VerificationFailed` exactly when only the last part fails.
   */
  function Verify(m: CodeChallengeMethod, challenge: string, v: seq<byte>, s256: seq<byte> -> string)
    : (r: Result<(), CodeChallengeError>)
    ensures r.Ok? <==> ValidVerifier(v) && IsKnown(m) && challenge == Transform(m, v, s256)
    ensures r == Err(VerificationFailed) <==>
              ValidVerifier(v) && IsKnown(m) && challenge != Transform(m, v, s256)
    ensures !ValidVerifier(v) ==> r == ValidateVerifier(v)
  {
    match ComputeChallenge(m, v, s256)
    case Err(e) => Err(e)
    case Ok(computed) => if computed == challenge then Ok(()) else Err(VerificationFailed)
  }

  /** A challenge computed from a valid verifier is accepted for that verifier. */
  lemma RoundTrip(m: CodeChallengeMethod, v: seq<byte>, s256: seq<byte> -> string)
    requires ValidVerifier(v) && IsKnown(m)
    ensures ComputeChallenge(m, v, s256).Ok?
    ensures Verify(m, ComputeChallenge(m, v, s256).value, v, s256) == Ok(())
  {
  }

  /** With `plain`, a challenge is accepted for one verifier only: the challenge itself. */
  lemma {:induction false} PlainPinsVerifier(c: string, v1: seq<byte>, v2: seq<byte>, s256: seq<byte> -> string)
    requires Verify(Plain, c, v1, s256).Ok? && Verify(Plain, c, v2, s256).Ok?
    ensures v1 == v2
  {
    assert AsString(v1) == c == AsString(v2);
    forall i | 0 <= i < |v1| ensures v1[i] == v2[i] {
      assert AsString(v1)[i] == AsString(v2)[i];
    }
  }
}
