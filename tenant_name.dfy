/**
 * Validation of a tenant name, as `validate_tenant_name` does it: the
 * Kubernetes label pattern `^[a-z0-9]([-a-z0-9]*[a-z0-9])?$` checked with
 * Python's `re.match`, then a minimum and a maximum length, in that order.
 */
module TenantName {
  import opened Wrappers

  /** Why a name is refused; the first rule that fails is the one reported. */
  datatype NameError = NotDnsLabel | TooShort | TooLong

  const MinLength: nat := 3
  const MaxLength: nat := 63

  /** `[a-z0-9]` */
  predicate IsAlnum(c: char) {
    'a' <= c <= 'z' || '0' <= c <= '9'
  }

  /** `[-a-z0-9]` */
  predicate IsLabelChar(c: char) {
    IsAlnum(c) || c == '-'
  }

  /**
   * Python's `$` without MULTILINE: it matches at the end of the string and
   * also just before a newline that is the string's last character.
   */
  predicate AtEnd(s: string, i: nat) {
    i == |s| || (i + 1 == |s| && s[i] == '\n')
  }

  /**
   * The group `[-a-z0-9]*[a-z0-9]` followed by `$`, matched from position i.
   * Either the star stops here and s[i] is the closing `[a-z0-9]`, or the
   * star takes s[i] and the match goes on at i + 1 (the regex engine's
   * backtracking tries both).
   */
  predicate GroupMatchesFrom(s: string, i: nat)
    decreases |s| - i
  {
    i < |s| &&
    ((IsAlnum(s[i]) && AtEnd(s, i + 1)) || (IsLabelChar(s[i]) && GroupMatchesFrom(s, i + 1)))
  }

  /** `re.match('^[a-z0-9]([-a-z0-9]*[a-z0-9])?$', s)` is not None. */
  predicate RegexMatches(s: string) {
    |s| >= 1 && IsAlnum(s[0]) && (AtEnd(s, 1) || GroupMatchesFrom(s, 1))
  }

  /** Every character of s[i..j] is in `[-a-z0-9]`. */
  predicate AllLabelChars(s: string, i: nat, j: nat)
    requires i <= j <= |s|
  {
    forall k | i <= k < j :: IsLabelChar(s[k])
  }

  /** A DNS label: `[-a-z0-9]` characters, the first and the last in `[a-z0-9]`. */
  predicate IsDnsLabel(s: string) {
    |s| >= 1 && IsAlnum(s[0]) && IsAlnum(s[|s| - 1]) && AllLabelChars(s, 0, |s|)
  }

  /** The strings the pattern accepts: a DNS label, or a DNS label and one final newline. */
  predicate NamePattern(s: string) {
    IsDnsLabel(s) || (|s| >= 2 && s[|s| - 1] == '\n' && IsDnsLabel(s[..|s| - 1]))
  }

  /** The backtracking group match succeeds exactly when the rest of s is a run of label characters ending in an alphanumeric, before `$`. */
  lemma {:induction false} GroupMatchesFromIff(s: string, i: nat)
    requires i <= |s|
    ensures GroupMatchesFrom(s, i) <==>
      (i < |s| && AllLabelChars(s, i, |s|) && IsAlnum(s[|s| - 1])) ||
      (i + 1 < |s| && s[|s| - 1] == '\n' && AllLabelChars(s, i, |s| - 1) && IsAlnum(s[|s| - 2]))
    decreases |s| - i
  {
    if i < |s| {
      GroupMatchesFromIff(s, i + 1);
      if i + 1 < |s| {
        assert AllLabelChars(s, i, |s|) <==> IsLabelChar(s[i]) && AllLabelChars(s, i + 1, |s|);
        assert AllLabelChars(s, i, |s| - 1) <==> IsLabelChar(s[i]) && AllLabelChars(s, i + 1, |s| - 1);
      }
    }
  }

  /** The regex as Python evaluates it accepts exactly `NamePattern`. */
  lemma RegexMatchesIff(s: string)
    ensures RegexMatches(s) <==> NamePattern(s)
  {
    if |s| >= 1 {
      GroupMatchesFromIff(s, 1);
      assert AllLabelChars(s, 0, |s|) <==> IsLabelChar(s[0]) && AllLabelChars(s, 1, |s|);
      if |s| >= 2 {
        var t := s[..|s| - 1];
        assert AllLabelChars(t, 0, |t|) <==> IsLabelChar(s[0]) && AllLabelChars(s, 1, |s| - 1);
      }
    }
  }

  /**
   * `validate_tenant_name`: None when the name is accepted, otherwise the
   * first violated rule (pattern, then too short, then too long).
   */
  function ValidateTenantName(name: string): (r: Option<NameError>)
    ensures r.None? <==> NamePattern(name) && MinLength <= |name| <= MaxLength
    ensures r == Some(NotDnsLabel) <==> !NamePattern(name)
    ensures r == Some(TooShort) <==> NamePattern(name) && |name| < MinLength
    ensures r == Some(TooLong) <==> NamePattern(name) && |name| > MaxLength
  {
    RegexMatchesIff(name);
    if !RegexMatches(name) then Some(NotDnsLabel)
    else if |name| < MinLength then Some(TooShort)
    else if |name| > MaxLength then Some(TooLong)
    else None
  }

  /** Python's `$` lets one trailing newline through: "ab\n" is not a DNS label, yet it is accepted. */
  lemma TrailingNewlineAccepted()
    ensures !IsDnsLabel("ab\n") && ValidateTenantName("ab\n") == None
  {
    assert "ab\n"[..2] == "ab";
  }

  /** The first violation wins: "A_" fails the pattern before it fails the length check. */
  lemma PatternCheckedFirst()
    ensures ValidateTenantName("A_") == Some(NotDnsLabel)
    ensures ValidateTenantName("ab") == Some(TooShort)
  {
    assert "ab"[..1] == "a";
  }
}
