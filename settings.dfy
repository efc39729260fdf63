/** The password policy of the settings page: the checks shown beside the new
    password, and the guards that decide whether a password change is submitted. */
module Settings {
  import opened Text

  datatype PasswordPolicy = PasswordPolicy(minLength: int, requireUppercase: bool, requireLowercase: bool,
                                           requireNumbers: bool, requireSpecialChars: bool)

  /** The policy of the system configuration. */
  const Policy: PasswordPolicy := PasswordPolicy(8, true, true, true, true)

  /** The characters of the class `[!@#$%^&*(),.?":{}|<>]`. */
  const SpecialChars: string := "!@#$%^&*(),.?\":{}|<>"

  predicate IsSpecial(c: char) { c in SpecialChars }

  /** `/[X]/.test(s)` for a one-character class X: some character of s is in X. */
  function Test(s: string, inClass: char -> bool): (b: bool)
    ensures b <==> exists i :: 0 <= i < |s| && inClass(s[i])
  {
    if s == [] then false
    else if inClass(s[0]) then true
    else
      var rest := Test(s[1..], inClass);
      assert forall i :: 0 < i < |s| ==> s[i] == s[1..][i - 1];
      rest
  }

  datatype PasswordChecks = PasswordChecks(length: bool, uppercase: bool, lowercase: bool,
                                           numbers: bool, special: bool)

  /** `validatePassword(password)` under a policy. */
  function ValidatePassword(policy: PasswordPolicy, password: string): (c: PasswordChecks)
    ensures c.length <==> |password| >= policy.minLength
    ensures c.uppercase <==> !policy.requireUppercase || exists i :: 0 <= i < |password| && IsUpper(password[i])
    ensures c.lowercase <==> !policy.requireLowercase || exists i :: 0 <= i < |password| && IsLower(password[i])
    ensures c.numbers <==> !policy.requireNumbers || exists i :: 0 <= i < |password| && IsDigit(password[i])
    ensures c.special <==> !policy.requireSpecialChars || exists i :: 0 <= i < |password| && IsSpecial(password[i])
  {
    PasswordChecks(|password| >= policy.minLength,
                   !policy.requireUppercase || Test(password, IsUpper),
                   !policy.requireLowercase || Test(password, IsLower),
                   !policy.requireNumbers || Test(password, IsDigit),
                   !policy.requireSpecialChars || Test(password, IsSpecial))
  }

  /** Under the system policy the length check asks for at least 8 characters. */
  lemma LengthCheckIsEight(password: string)
    ensures ValidatePassword(Policy, password).length <==> |password| >= 8
  {
  }

  /** The special class holds exactly its 20 listed characters: no letter, digit
      or space, and no character twice. */
  lemma SpecialClassExact(c: char)
    ensures |SpecialChars| == 20
    ensures IsSpecial(c) ==> !IsUpper(c) && !IsLower(c) && !IsDigit(c) && c != ' '
    ensures IsSpecial(c) <==>
              c == '!' || c == '@' || c == '#' || c == '$' || c == '%' || c == '^' || c == '&'
              || c == '*' || c == '(' || c == ')' || c == ',' || c == '.' || c == '?' || c == '"'
              || c == ':' || c == '{' || c == '}' || c == '|' || c == '<' || c == '>'
  {
  }

  /** What `handlePasswordChange` does. */
  datatype Outcome =
    | Mismatch                                                // alert 'New passwords do not match'
    | TooShort(minLength: int)                                // alert 'Password must be at least ...'
    | Submitted(currentPassword: string, newPassword: string) // the update mutation is called

  function HandlePasswordChange(currentPassword: string, newPassword: string, confirmPassword: string)
    : (o: Outcome)
    ensures o.Submitted? <==> newPassword == confirmPassword && |newPassword| >= Policy.minLength
    ensures newPassword != confirmPassword ==> o == Mismatch
    ensures o.Submitted? ==> o.currentPassword == currentPassword && o.newPassword == newPassword
  {
    if newPassword != confirmPassword then Mismatch
    else if |newPassword| < Policy.minLength then TooShort(Policy.minLength)
    else Submitted(currentPassword, newPassword)
  }

  /** Submission follows the length check alone: the character-class checks shown
      on the page do not stop a matching password of 8 or more characters. */
  lemma SubmissionIgnoresClassChecks(currentPassword: string, newPassword: string)
    ensures HandlePasswordChange(currentPassword, newPassword, newPassword).Submitted?
            <==> ValidatePassword(Policy, newPassword).length
  {
  }

  /** A password of eight lower-case letters fails three checks and is still submitted. */
  lemma WeakPasswordSubmitted()
    ensures var checks := ValidatePassword(Policy, "aaaaaaaa");
      !checks.uppercase && !checks.numbers && !checks.special
    ensures HandlePasswordChange("old", "aaaaaaaa", "aaaaaaaa").Submitted?
  {
    var p := "aaaaaaaa";
    assert forall i :: 0 <= i < |p| ==> p[i] == 'a';
    SpecialClassExact('a');
    assert !IsSpecial('a');
  }
}
