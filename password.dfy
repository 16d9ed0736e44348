/**
 * The Password value object: six strength checks run in a fixed order, the
 * first one that fails decides the error, and the accepted text is kept as
 * given. `Hash` and `Verify` are the placeholder pair built on a `hashed_`
 * prefix.
 */
module Passwords {
  import opened Wrappers
  import opened Errors
  import opened Text

  const MinLength: nat := 8

  /** The class `[@$!%*?&#]`. */
  const Specials: string := "@$!%*?&#"

  /** The prefix the placeholder hash puts in front of the plain text. */
  const HashPrefix: string := "hashed_"

  datatype Password = Password(value: string)

  predicate HasUpper(s: string) { exists i :: 0 <= i < |s| && IsUpper(s[i]) }
  predicate HasLowerLetter(s: string) { exists i :: 0 <= i < |s| && IsLowerLetter(s[i]) }
  predicate HasDigit(s: string) { exists i :: 0 <= i < |s| && IsDigit(s[i]) }
  predicate HasSpecial(s: string) { exists i :: 0 <= i < |s| && s[i] in Specials }

  /** The strength rule the comment above `validate` states, read as one condition. */
  predicate Strong(s: string)
  {
    s != [] && |s| >= MinLength && HasUpper(s) && HasLowerLetter(s) && HasDigit(s) && HasSpecial(s)
  }

  /** `new Password(raw)`: empty, length, upper, lower, digit, special, in that order. */
  function Create(raw: string): (r: Result<Password, Error>)
    ensures r.Success? <==> Strong(raw)
    ensures r.Success? ==> r.value.value == raw
    ensures raw == [] ==> r == Failure(PasswordEmpty)
    ensures raw != [] && |raw| < MinLength ==> r == Failure(PasswordTooShort)
    ensures |raw| >= MinLength && !HasUpper(raw) ==> r == Failure(PasswordNoUpper)
    ensures |raw| >= MinLength && HasUpper(raw) && !HasLowerLetter(raw) ==> r == Failure(PasswordNoLower)
    ensures |raw| >= MinLength && HasUpper(raw) && HasLowerLetter(raw) && !HasDigit(raw) ==>
      r == Failure(PasswordNoDigit)
    ensures |raw| >= MinLength && HasUpper(raw) && HasLowerLetter(raw) && HasDigit(raw) && !HasSpecial(raw) ==>
      r == Failure(PasswordNoSpecial)
  {
    if raw == [] then Failure(PasswordEmpty)
    else if |raw| < MinLength then Failure(PasswordTooShort)
    else if !HasUpper(raw) then Failure(PasswordNoUpper)
    else if !HasLowerLetter(raw) then Failure(PasswordNoLower)
    else if !HasDigit(raw) then Failure(PasswordNoDigit)
    else if !HasSpecial(raw) then Failure(PasswordNoSpecial)
    else Success(Password(raw))
  }

  /** A rejected password always carries one of the six strength messages. */
  lemma CreateErrors(raw: string)
    ensures Create(raw).Failure? ==>
      Create(raw).error in {PasswordEmpty, PasswordTooShort, PasswordNoUpper,
                            PasswordNoLower, PasswordNoDigit, PasswordNoSpecial}
  {
  }

  /** `hash()`: the prefix followed by the stored text. */
  function Hash(p: Password): (h: string)
    ensures |h| == |HashPrefix| + |p.value|
    ensures h[..|HashPrefix|] == HashPrefix && h[|HashPrefix|..] == p.value
  {
    HashPrefix + p.value
  }

  /** The static `verify(plain, hashed)`. */
  predicate Verify(plain: string, hashed: string)
  {
    HashPrefix + plain == hashed
  }

  /** A hash verifies against exactly the text it was made from, and against nothing else. */
  lemma VerifyHash(plain: string, p: Password)
    ensures Verify(plain, Hash(p)) <==> plain == p.value
  {
    if Verify(plain, Hash(p)) {
      assert (HashPrefix + plain)[|HashPrefix|..] == plain;
    }
  }

  /** `verify` checks only the prefix relation, so it accepts texts `Create` rejects. */
  lemma VerifyIgnoresStrength(plain: string)
    ensures Verify(plain, HashPrefix + plain)
    ensures Create("abc").Failure? && Verify("abc", HashPrefix + "abc")
  {
    assert |"abc"| < MinLength;
  }
}
