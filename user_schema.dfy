/**
 * The profile and password-change form rules (schema/userSchema.ts), as the
 * list of issues a form produces: one per failing field rule, in declaration
 * order, then the equality refinement of the password form.
 */
module UserSchema {
  import opened Wrappers

  /** A reported problem: the field it is attached to and its text. */
  datatype Issue = Issue(path: string, message: string)

  datatype ProfileForm = ProfileForm(displayName: string, username: string, bio: Option<string>)

  datatype PasswordForm = PasswordForm(currentPassword: string, newPassword: string, confirmPassword: string)

  const DisplayNameRequired := Issue("displayName", "Display Name is required")
  const UsernameTooShort := Issue("username", "Username must be at least 3 characters")
  const BioTooLong := Issue("bio", "Bio is too long")
  const CurrentPasswordRequired := Issue("currentPassword", "Current password is required")
  const NewPasswordTooShort := Issue("newPassword", "New password must be at least 8 characters")
  const ConfirmPasswordRequired := Issue("confirmPassword", "Please confirm your password")
  const PasswordsDontMatch := Issue("confirmPassword", "Passwords don't match")

  const MinDisplayName := 1
  const MinUsername := 3
  const MaxBio := 180
  const MinPassword := 8

  /** The profile rules, field by field. */
  predicate ProfileValid(f: ProfileForm): (ok: bool)
    ensures ok ==> f.displayName != "" && |f.username| >= MinUsername
    ensures f.bio.Some? && |f.bio.value| > MaxBio ==> !ok
    ensures f.bio.None? ==> (ok <==> f.displayName != "" && |f.username| >= MinUsername)
  {
    && |f.displayName| >= MinDisplayName
    && |f.username| >= MinUsername
    && (f.bio.Some? ==> |f.bio.value| <= MaxBio)
  }

  /** The password-change rules: three minimum lengths and the two new passwords equal. */
  predicate PasswordValid(f: PasswordForm): (ok: bool)
    ensures ok ==> f.newPassword == f.confirmPassword && |f.confirmPassword| >= MinPassword
    ensures f.newPassword != f.confirmPassword ==> !ok
    ensures |f.currentPassword| < MinPassword || |f.newPassword| < MinPassword ==> !ok
  {
    && |f.currentPassword| >= MinPassword
    && |f.newPassword| >= MinPassword
    && |f.confirmPassword| >= MinPassword
    && f.newPassword == f.confirmPassword
  }

  /** The issue, if any, of one length rule. */
  function LengthIssue(violated: bool, issue: Issue): seq<Issue> {
    if violated then [issue] else []
  }

  /** The issues of a profile form. */
  function ProfileIssues(f: ProfileForm): (issues: seq<Issue>)
    ensures issues == [] <==> ProfileValid(f)
    ensures DisplayNameRequired in issues <==> |f.displayName| < MinDisplayName
    ensures UsernameTooShort in issues <==> |f.username| < MinUsername
    ensures BioTooLong in issues <==> f.bio.Some? && |f.bio.value| > MaxBio
    ensures |issues| <= 3
  {
    LengthIssue(|f.displayName| < MinDisplayName, DisplayNameRequired)
      + LengthIssue(|f.username| < MinUsername, UsernameTooShort)
      + LengthIssue(f.bio.Some? && |f.bio.value| > MaxBio, BioTooLong)
  }

  /** The issues of a password-change form; the mismatch is reported on `confirmPassword`. */
  function PasswordIssues(f: PasswordForm): (issues: seq<Issue>)
    ensures issues == [] <==> PasswordValid(f)
    ensures PasswordsDontMatch in issues <==> f.newPassword != f.confirmPassword
    ensures CurrentPasswordRequired in issues <==> |f.currentPassword| < MinPassword
    ensures NewPasswordTooShort in issues <==> |f.newPassword| < MinPassword
    ensures ConfirmPasswordRequired in issues <==> |f.confirmPassword| < MinPassword
    ensures forall k :: 0 <= k < |issues| && issues[k].message == PasswordsDontMatch.message ==>
              issues[k].path == "confirmPassword"
  {
    LengthIssue(|f.currentPassword| < MinPassword, CurrentPasswordRequired)
      + LengthIssue(|f.newPassword| < MinPassword, NewPasswordTooShort)
      + LengthIssue(|f.confirmPassword| < MinPassword, ConfirmPasswordRequired)
      + LengthIssue(f.newPassword != f.confirmPassword, PasswordsDontMatch)
  }

  /** An absent bio never blocks a profile: only the name rules decide. */
  lemma AbsentBioIsAccepted(displayName: string, username: string)
    ensures ProfileIssues(ProfileForm(displayName, username, None)) == [] <==>
              |displayName| >= MinDisplayName && |username| >= MinUsername
  {
  }
}
