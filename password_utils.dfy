/**
 * The password strength validator used at registration. Hashing and comparison
 * (bcrypt) are oracles passed to the auth controller and are not modelled here.
 */
module PasswordUtils {

  const LengthMessage := "Password must be at least 8 characters long"
  const UppercaseMessage := "Password must contain at least one uppercase letter"
  const LowercaseMessage := "Password must contain at least one lowercase letter"
  const NumberMessage := "Password must contain at least one number"
  const SpecialMessage := "Password must contain at least one special character"

  /** The characters of the class `[!@#$%^&*(),.?":{}|<>]`. */
  const SpecialCharacters := "!@#$%^&*(),.?\":{}|<>"

  /** The shortest accepted password, in UTF-16 code units. */
  const MinLength := 8

  /**
   * JavaScript's `p.length`: the number of UTF-16 code units, so a character
   * above U+FFFF (an emoji, say) counts twice. The character-class tests below
   * are unaffected, since the surrogate halves match none of their classes.
   */
  function Utf16Length(p: string): (n: nat)
    ensures |p| <= n <= 2 * |p|
    decreases |p|
  {
    if p == [] then 0 else (if p[0] as int > 0xFFFF then 2 else 1) + Utf16Length(p[1..])
  }

  /** Without characters above U+FFFF, `length` is the number of characters. */
  lemma {:induction false} BasicPlaneLength(p: string)
    requires forall i :: 0 <= i < |p| ==> p[i] as int <= 0xFFFF
    ensures Utf16Length(p) == |p|
    decreases |p|
  {
    if p != [] {
      assert forall i :: 0 <= i < |p[1..]| ==> p[1..][i] == p[i + 1];
      BasicPlaneLength(p[1..]);
    }
  }

  /** Two emoji and four more characters make six characters but eight code units: long enough. */
  lemma EmojiPasswordIsLongEnough()
    ensures var p := "\U{1F600}\U{1F600}Aa1!";
      |p| == 6 && Utf16Length(p) == 8 && StrengthErrors(p) == []
  {
    var p := "\U{1F600}\U{1F600}Aa1!";
    assert p[1..][1..][1..] == "a1!";
    assert 'A' <= p[2] <= 'Z' && 'a' <= p[3] <= 'z' && '0' <= p[4] <= '9' && p[5] in SpecialCharacters;
  }

  /** `/[A-Z]/.test(p)` */
  predicate HasUppercase(p: string) {
    exists i :: 0 <= i < |p| && 'A' <= p[i] <= 'Z'
  }

  /** `/[a-z]/.test(p)` */
  predicate HasLowercase(p: string) {
    exists i :: 0 <= i < |p| && 'a' <= p[i] <= 'z'
  }

  /** `/[0-9]/.test(p)` */
  predicate HasDigit(p: string) {
    exists i :: 0 <= i < |p| && '0' <= p[i] <= '9'
  }

  /** `/[!@#$%^&*(),.?":{}|<>]/.test(p)` */
  predicate HasSpecial(p: string) {
    exists i :: 0 <= i < |p| && p[i] in SpecialCharacters
  }

  /** A password that passes every rule. */
  predicate Strong(p: string) {
    Utf16Length(p) >= MinLength && HasUppercase(p) && HasLowercase(p) && HasDigit(p) && HasSpecial(p)
  }

  /** `{ valid, errors }` as returned by the validator. */
  datatype Validation = Validation(valid: bool, errors: seq<string>)

  /** `errors.push(message)` when the rule is broken. */
  function Report(errors: seq<string>, broken: bool, message: string): seq<string> {
    if broken then errors + [message] else errors
  }

  /** The messages of the rules `p` breaks, in the order the validator checks them. */
  function StrengthErrors(p: string): seq<string> {
    var afterLength := Report([], Utf16Length(p) < MinLength, LengthMessage);
    var afterUpper := Report(afterLength, !HasUppercase(p), UppercaseMessage);
    var afterLower := Report(afterUpper, !HasLowercase(p), LowercaseMessage);
    var afterDigit := Report(afterLower, !HasDigit(p), NumberMessage);
    Report(afterDigit, !HasSpecial(p), SpecialMessage)
  }

  /** The position of a rule's message in the validator's fixed order (5 for any other text). */
  function Rank(message: string): nat {
    if message == LengthMessage then 0
    else if message == UppercaseMessage then 1
    else if message == LowercaseMessage then 2
    else if message == NumberMessage then 3
    else if message == SpecialMessage then 4
    else 5
  }

  /**
   * `validatePasswordStrength`: five guards, each appending its message; the
   * password is valid exactly when nothing was appended. Total on every string.
   */
  method ValidatePasswordStrength(password: string) returns (result: Validation)
    ensures result.errors == StrengthErrors(password)
    ensures result.valid <==> result.errors == []
  {
    var errors: seq<string> := [];
    if Utf16Length(password) < MinLength {
      errors := errors + [LengthMessage];
    }
    if !HasUppercase(password) {
      errors := errors + [UppercaseMessage];
    }
    if !HasLowercase(password) {
      errors := errors + [LowercaseMessage];
    }
    if !HasDigit(password) {
      errors := errors + [NumberMessage];
    }
    if !HasSpecial(password) {
      errors := errors + [SpecialMessage];
    }
    result := Validation(|errors| == 0, errors);
  }

  /** A password is reported valid exactly when it passes all five rules. */
  lemma ValidIffStrong(p: string)
    ensures StrengthErrors(p) == [] <==> Strong(p)
  {
  }

  /** A message is in `Report(errors, broken, message)` when it was already there or has just been pushed. */
  lemma InReport(errors: seq<string>, broken: bool, message: string, m: string)
    ensures m in Report(errors, broken, message) <==> m in errors || (broken && m == message)
  {
  }

  /** Each message is reported exactly when its own rule is broken. */
  lemma MessageIffRuleBroken(p: string)
    ensures LengthMessage in StrengthErrors(p) <==> Utf16Length(p) < MinLength
    ensures UppercaseMessage in StrengthErrors(p) <==> !HasUppercase(p)
    ensures LowercaseMessage in StrengthErrors(p) <==> !HasLowercase(p)
    ensures NumberMessage in StrengthErrors(p) <==> !HasDigit(p)
    ensures SpecialMessage in StrengthErrors(p) <==> !HasSpecial(p)
  {
    var afterLength := Report([], Utf16Length(p) < MinLength, LengthMessage);
    var afterUpper := Report(afterLength, !HasUppercase(p), UppercaseMessage);
    var afterLower := Report(afterUpper, !HasLowercase(p), LowercaseMessage);
    var afterDigit := Report(afterLower, !HasDigit(p), NumberMessage);
    assert Rank(LengthMessage) == 0 && Rank(UppercaseMessage) == 1 && Rank(LowercaseMessage) == 2;
    assert Rank(NumberMessage) == 3 && Rank(SpecialMessage) == 4;
    forall m | Rank(m) < 5
      ensures m in StrengthErrors(p) <==>
        || (m == LengthMessage && Utf16Length(p) < MinLength)
        || (m == UppercaseMessage && !HasUppercase(p))
        || (m == LowercaseMessage && !HasLowercase(p))
        || (m == NumberMessage && !HasDigit(p))
        || (m == SpecialMessage && !HasSpecial(p))
    {
      InReport([], Utf16Length(p) < MinLength, LengthMessage, m);
      InReport(afterLength, !HasUppercase(p), UppercaseMessage, m);
      InReport(afterUpper, !HasLowercase(p), LowercaseMessage, m);
      InReport(afterLower, !HasDigit(p), NumberMessage, m);
      InReport(afterDigit, !HasSpecial(p), SpecialMessage, m);
    }
  }

  /** Every message in `errors` is a rule's message ranked below `bound`, in increasing rank. */
  predicate RankedBelow(errors: seq<string>, bound: nat) {
    && (forall i :: 0 <= i < |errors| ==> Rank(errors[i]) < bound)
    && forall i, j :: 0 <= i < j < |errors| ==> Rank(errors[i]) < Rank(errors[j])
  }

  /** Pushing a message that ranks above everything pushed so far keeps the order. */
  lemma ReportRanked(errors: seq<string>, broken: bool, message: string, bound: nat)
    requires RankedBelow(errors, Rank(message)) && Rank(message) < bound
    ensures RankedBelow(Report(errors, broken, message), bound)
    ensures |Report(errors, broken, message)| <= |errors| + 1
  {
  }

  /**
   * All broken rules are reported, never more than five, each once, in the
   * fixed order length, uppercase, lowercase, number, special.
   */
  lemma ErrorsInFixedOrder(p: string)
    ensures |StrengthErrors(p)| <= 5
    ensures forall i :: 0 <= i < |StrengthErrors(p)| ==> Rank(StrengthErrors(p)[i]) < 5
    ensures forall i, j :: 0 <= i < j < |StrengthErrors(p)| ==>
      Rank(StrengthErrors(p)[i]) < Rank(StrengthErrors(p)[j])
  {
    var afterLength := Report([], Utf16Length(p) < MinLength, LengthMessage);
    var afterUpper := Report(afterLength, !HasUppercase(p), UppercaseMessage);
    var afterLower := Report(afterUpper, !HasLowercase(p), LowercaseMessage);
    var afterDigit := Report(afterLower, !HasDigit(p), NumberMessage);
    assert Rank(LengthMessage) == 0 && Rank(UppercaseMessage) == 1 && Rank(LowercaseMessage) == 2;
    assert Rank(NumberMessage) == 3 && Rank(SpecialMessage) == 4;
    ReportRanked([], Utf16Length(p) < MinLength, LengthMessage, 1);
    ReportRanked(afterLength, !HasUppercase(p), UppercaseMessage, 2);
    ReportRanked(afterUpper, !HasLowercase(p), LowercaseMessage, 3);
    ReportRanked(afterLower, !HasDigit(p), NumberMessage, 4);
    ReportRanked(afterDigit, !HasSpecial(p), SpecialMessage, 5);
  }

  /** A password that breaks only the digit rule gets exactly the digit message. */
  lemma OnlyDigitMissing(p: string)
    requires Utf16Length(p) >= MinLength && HasUppercase(p) && HasLowercase(p) && HasSpecial(p)
    requires !HasDigit(p)
    ensures StrengthErrors(p) == [NumberMessage]
  {
  }
}
