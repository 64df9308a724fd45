/** The registration form's validation, including the e-mail pattern
    `^\S+@\S+\.\S+$` written out as a scan. */
module RegisterForm {
  import opened Types
  import opened Text

  const ShortUsername := "Username must be at least 3 characters"
  const NoEmail := "Email is required"
  const BadEmail := "Please enter a valid email address"
  const ShortPassword := "Password must be at least 6 characters"
  const Mismatch := "Passwords do not match"

  predicate NoSpace(s: string)
  {
    forall i :: 0 <= i < |s| ==> !IsSpace(s[i])
  }

  /** The first index at or after `k` holding `c`. */
  function FindFrom(s: string, c: char, k: nat): (r: Option<nat>)
    requires k <= |s|
    ensures r.Some? ==> k <= r.value < |s| && s[r.value] == c
    ensures r.Some? ==> forall m :: k <= m < r.value ==> s[m] != c
    ensures r.None? ==> forall m :: k <= m < |s| ==> s[m] != c
    decreases |s| - k
  {
    if k == |s| then None
    else if s[k] == c then Some(k)
    else FindFrom(s, c, k + 1)
  }

  /** The last index below `k` holding `c`. */
  function FindLastBelow(s: string, c: char, k: nat): (r: Option<nat>)
    requires k <= |s|
    ensures r.Some? ==> r.value < k && s[r.value] == c
    ensures r.Some? ==> forall m :: r.value < m < k ==> s[m] != c
    ensures r.None? ==> forall m :: 0 <= m < k ==> s[m] != c
  {
    if k == 0 then None
    else if s[k - 1] == c then Some(k - 1)
    else FindLastBelow(s, c, k - 1)
  }

  /** The pattern test: no white space, and the first `@` after the first
      character lies at least two places before the last `.` that still has
      a character after it. */
  function EmailMatches(s: string): bool
  {
    if |s| < 5 || !NoSpace(s) then false
    else
      var at := FindFrom(s, '@', 1);
      var dot := FindLastBelow(s, '.', |s| - 1);
      at.Some? && dot.Some? && at.value + 2 <= dot.value
  }

  /** What the pattern means: `s` is `a + "@" + b + "." + c` with `a`, `b` and
      `c` non-empty and no white space anywhere (`\S` also matches `@` and `.`). */
  ghost predicate EmailShape(s: string)
  {
    NoSpace(s)
    && exists i, j :: 1 <= i && i + 2 <= j && j + 2 <= |s| && s[i] == '@' && s[j] == '.'
  }

  /** The scan accepts exactly the strings the pattern describes. */
  lemma EmailMatchesIff(s: string)
    ensures EmailMatches(s) <==> EmailShape(s)
  {
    if EmailShape(s) {
      var i, j :| 1 <= i && i + 2 <= j && j + 2 <= |s| && s[i] == '@' && s[j] == '.';
      var at := FindFrom(s, '@', 1);
      var dot := FindLastBelow(s, '.', |s| - 1);
      assert at.Some? && at.value <= i;
      assert dot.Some? && dot.value >= j;
    }
    if EmailMatches(s) {
      var at := FindFrom(s, '@', 1);
      var dot := FindLastBelow(s, '.', |s| - 1);
      assert 1 <= at.value && at.value + 2 <= dot.value && dot.value + 2 <= |s|;
    }
  }

  /** `validateForm`: the first failing check, if any. */
  function Validate(username: string, email: string, password: string, confirm: string): Option<string>
  {
    if |username| < 3 then Some(ShortUsername)
    else if email == "" then Some(NoEmail)
    else if !EmailMatches(email) then Some(BadEmail)
    else if |password| < 6 then Some(ShortPassword)
    else if password != confirm then Some(Mismatch)
    else None
  }

  /** The form is valid exactly when all five checks pass, and each failure is
      reported only when every earlier check passed. */
  lemma ValidateSpec(username: string, email: string, password: string, confirm: string)
    ensures Validate(username, email, password, confirm) == None <==>
      |username| >= 3 && email != "" && EmailShape(email) && |password| >= 6 && password == confirm
    ensures Validate(username, email, password, confirm) == Some(BadEmail) <==>
      |username| >= 3 && email != "" && !EmailShape(email)
    ensures Validate(username, email, password, confirm) == Some(Mismatch) <==>
      |username| >= 3 && EmailShape(email) && |password| >= 6 && password != confirm
  {
    EmailMatchesIff(email);
  }

  /** Some concrete addresses. */
  lemma EmailExamples()
    ensures EmailMatches("a@b.c")
    ensures !EmailMatches("a@b.") && !EmailMatches("@b.c") && !EmailMatches("a b@c.d")
  {
    assert IsSpace(" "[0]);
    assert "a b@c.d"[1] == ' ';
  }
}
