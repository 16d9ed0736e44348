/**
 * The Email value object: trims, lower-cases and checks a simplified
 * `local@domain.tld` shape, capped at 254 characters. The only way to obtain
 * an `Email` is `Create`, and every `Email` it returns satisfies `Valid`.
 */
module Emails {
  import opened Wrappers
  import opened Errors
  import opened Text

  const MaxLength: nat := 254

  datatype Email = Email(value: string)

  /** The regex class `[^\s@]` over a whole string. */
  predicate Plain(s: string)
  {
    forall j :: 0 <= j < |s| ==> s[j] != '@' && !IsSpace(s[j])
  }

  /** `/^[^\s@]+@[^\s@]+\.[^\s@]+$/.test(t)`: `i` is the `@`, `k` the chosen dot. */
  predicate MatchesPattern(t: string)
  {
    exists i, k :: 0 < i < |t| && i + 1 < k < |t| - 1 && MatchesAt(t, i, k)
  }

  /** A domain with a dot that has text on both sides. */
  predicate HasInnerDot(d: string)
  {
    exists k :: 0 < k < |d| - 1 && d[k] == '.'
  }

  lemma PlainSlices(s: string, a: nat, b: nat)
    requires Plain(s) && a <= b <= |s|
    ensures Plain(s[a..b])
  {
  }

  lemma PlainNoAt(s: string)
    requires Plain(s)
    ensures multiset(s)['@'] == 0
  {
    assert '@' !in s;
  }

  lemma AtCountSplit(t: string, i: nat)
    requires i < |t|
    ensures multiset(t) == multiset(t[..i]) + multiset{t[i]} + multiset(t[i + 1..])
  {
    assert t == t[..i] + [t[i]] + t[i + 1..];
  }

  /** The literal reading of the pattern, with its witnesses named. */
  predicate MatchesAt(t: string, i: int, k: int)
  {
    0 < i < |t| && i + 1 < k < |t| - 1 && t[i] == '@' && t[k] == '.'
      && Plain(t[..i]) && Plain(t[i + 1..k]) && Plain(t[k + 1..])
  }

  lemma MatchesAtMeaning(t: string, i: int, k: int)
    requires MatchesAt(t, i, k)
    ensures multiset(t)['@'] == 1
    ensures forall j :: 0 <= j < |t| ==> !IsSpace(t[j])
    ensures HasInnerDot(t[i + 1..])
  {
    var d := t[i + 1..];
    assert d == t[i + 1..k] + [t[k]] + t[k + 1..];
    assert Plain(d);
    AtCountSplit(t, i);
    PlainNoAt(t[..i]);
    PlainNoAt(d);
    forall j | 0 <= j < |t| ensures !IsSpace(t[j]) {
      if j < i {
        assert t[j] == t[..i][j];
      } else if j > i {
        assert t[j] == d[j - i - 1];
      }
    }
    assert d[k - i - 1] == '.';
  }

  lemma PlainFromCount(s: string)
    requires multiset(s)['@'] == 0
    requires forall j :: 0 <= j < |s| ==> !IsSpace(s[j])
    ensures Plain(s)
  {
    forall j | 0 <= j < |s| ensures s[j] != '@' {
      assert s[j] in multiset(s);
    }
  }

  lemma MeaningGivesMatch(t: string, i: int)
    requires multiset(t)['@'] == 1
    requires forall j :: 0 <= j < |t| ==> !IsSpace(t[j])
    requires 0 < i < |t| && t[i] == '@' && HasInnerDot(t[i + 1..])
    ensures MatchesPattern(t)
  {
    var d := t[i + 1..];
    var k' :| 0 < k' < |d| - 1 && d[k'] == '.';
    var k := i + 1 + k';
    AtCountSplit(t, i);
    assert t[..i] + [t[i]] + d == t;
    PlainFromCount(t[..i]);
    PlainFromCount(d);
    assert t[i + 1..k] == d[..k'];
    assert t[k + 1..] == d[k' + 1..];
    PlainSlices(d, 0, k');
    PlainSlices(d, k' + 1, |d|);
    assert MatchesAt(t, i, k);
  }

  /**
   * What the pattern means in words: exactly one `@`, no whitespace anywhere,
   * a non-empty local part, and a domain containing a dot with text on both sides.
   */
  lemma PatternMeaning(t: string)
    ensures MatchesPattern(t) <==>
      && multiset(t)['@'] == 1
      && (forall j :: 0 <= j < |t| ==> !IsSpace(t[j]))
      && (exists i :: 0 < i < |t| && t[i] == '@' && HasInnerDot(t[i + 1..]))
  {
    if MatchesPattern(t) {
      var i, k :| MatchesAt(t, i, k);
      MatchesAtMeaning(t, i, k);
    }
    if && multiset(t)['@'] == 1
       && (forall j :: 0 <= j < |t| ==> !IsSpace(t[j]))
       && (exists i :: 0 < i < |t| && t[i] == '@' && HasInnerDot(t[i + 1..]))
    {
      var i :| 0 < i < |t| && t[i] == '@' && HasInnerDot(t[i + 1..]);
      MeaningGivesMatch(t, i);
    }
  }

  lemma LowerKeepsPlain(t: string, a: nat, b: nat)
    requires a <= b <= |t| && Plain(t[a..b])
    ensures Plain(Lower(t)[a..b])
  {
    LowerSlice(t, a, b);
    forall j | 0 <= j < b - a ensures Lower(t)[a..b][j] != '@' && !IsSpace(Lower(t)[a..b][j]) {
      assert t[a..b][j] == t[a + j];
      LowerCharKeepsClass(t[a + j]);
    }
  }

  /** Lower-casing an address keeps it matching the pattern. */
  lemma PatternLower(t: string)
    requires MatchesPattern(t)
    ensures MatchesPattern(Lower(t))
  {
    var i: int, k: int :| 0 < i < |t| && i + 1 < k < |t| - 1 && MatchesAt(t, i, k);
    assert t[i] == '@' && t[k] == '.';
    assert Plain(t[..i]) && Plain(t[i + 1..k]) && Plain(t[k + 1..]);
    var u := Lower(t);
    LowerCharKeepsClass(t[i]);
    LowerCharKeepsClass(t[k]);
    assert t[..i] == t[0..i] && u[..i] == u[0..i];
    assert t[k + 1..] == t[k + 1..|t|] && u[k + 1..] == u[k + 1..|u|];
    LowerKeepsPlain(t, 0, i);
    LowerKeepsPlain(t, i + 1, k);
    LowerKeepsPlain(t, k + 1, |t|);
    assert MatchesAt(u, i, k);
  }

  /** What every constructed `Email` holds: trimmed, lower-case, well-shaped, at most 254 long. */
  ghost predicate Valid(e: Email)
  {
    && e.value != []
    && Trim(e.value) == e.value
    && Lower(e.value) == e.value
    && MatchesPattern(e.value)
    && |e.value| <= MaxLength
  }

  /** `new Email(raw)`: checks empty, then format, then length, on the trimmed input. */
  function Create(raw: string): (r: Result<Email, Error>)
    ensures IsBlank(raw) ==> r == Failure(EmailEmpty)
    ensures r.Failure? ==> r.error in {EmailEmpty, EmailFormat, EmailTooLong}
    ensures r.Success? ==> Valid(r.value) && r.value.value == Lower(Trim(raw))
  {
    var trimmed := Trim(raw);
    if trimmed == [] then Failure(EmailEmpty)
    else if !MatchesPattern(trimmed) then Failure(EmailFormat)
    else if |trimmed| > MaxLength then Failure(EmailTooLong)
    else
      NormalizedIsValid(raw);
      Success(Email(Lower(trimmed)))
  }

  lemma NormalizedIsValid(raw: string)
    requires Trim(raw) != [] && MatchesPattern(Trim(raw)) && |Trim(raw)| <= MaxLength
    ensures Valid(Email(Lower(Trim(raw))))
  {
    var t := Trim(raw);
    TrimIdempotent(raw);
    TrimLowerCommute(t);
    LowerIdempotent(t);
    PatternLower(t);
  }

  /** `getValue()` is `raw.toLowerCase().trim()`, as the constructor stores it. */
  lemma StoredValue(raw: string)
    requires Create(raw).Success?
    ensures Create(raw).value.value == Trim(Lower(raw))
  {
    TrimLowerCommute(raw);
  }

  /** The checks run in the order empty, format, length, so each error says exactly which failed. */
  lemma {:induction false} CheckOrder(raw: string)
    ensures Create(raw) == Failure(EmailEmpty) <==> IsBlank(raw)
    ensures Create(raw) == Failure(EmailFormat) <==> !IsBlank(raw) && !MatchesPattern(Trim(raw))
    ensures Create(raw) == Failure(EmailTooLong) <==>
      !IsBlank(raw) && MatchesPattern(Trim(raw)) && |Trim(raw)| > MaxLength
    ensures Create(raw).Success? <==>
      !IsBlank(raw) && MatchesPattern(Trim(raw)) && |Trim(raw)| <= MaxLength
  {
  }

  /** Normalising twice is normalising once: `new Email(e.getValue())` equals `e`. */
  lemma Idempotent(e: Email)
    requires Valid(e)
    ensures Create(e.value) == Success(e)
  {
  }

  /** `equals`: the normalised values are the same. */
  predicate Equals(a: Email, b: Email)
  {
    a.value == b.value
  }

  /** Two raw inputs give equal emails exactly when they agree up to case and surrounding whitespace. */
  lemma EqualsUpToCaseAndSpace(x: string, y: string)
    requires Create(x).Success? && Create(y).Success?
    ensures Equals(Create(x).value, Create(y).value) <==> Trim(Lower(x)) == Trim(Lower(y))
  {
    StoredValue(x);
    StoredValue(y);
  }
}
