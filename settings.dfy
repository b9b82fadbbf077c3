/** The settings page: the profile form (full name and username) and the
    password change, with the password rules that sign-up uses too. */
module Settings {
  import opened Wrappers
  import opened Text
  import opened Notices

  /** `/\d/.test(p)`: some ASCII digit. */
  predicate HasDigit(p: string) {
    exists i :: 0 <= i < |p| && IsDigit(p[i])
  }

  /** `/[A-Z]/.test(p)`: some ASCII capital letter. */
  predicate HasUpper(p: string) {
    exists i :: 0 <= i < |p| && IsUpper(p[i])
  }

  /** One line of the requirements checklist. */
  datatype Requirement = Requirement(text: string, met: bool)

  /** `passwordRequirements`: the checklist the form shows, in its order. */
  function PasswordRequirements(p: string): (rs: seq<Requirement>)
    ensures |rs| == 3
    ensures rs[0] == Requirement("At least 8 characters", |p| >= 8)
    ensures rs[1] == Requirement("Contains a number", HasDigit(p))
    ensures rs[2] == Requirement("Contains uppercase letter", HasUpper(p))
  {
    [Requirement("At least 8 characters", |p| >= 8),
     Requirement("Contains a number", HasDigit(p)),
     Requirement("Contains uppercase letter", HasUpper(p))]
  }

  /** `allPasswordReqsMet`: `passwordRequirements.every(req => req.met)`. */
  predicate AllRequirementsMet(p: string) {
    forall i :: 0 <= i < |PasswordRequirements(p)| ==> PasswordRequirements(p)[i].met
  }

  /** A password is strong exactly when it has 8 characters or more, a digit
      and a capital letter. */
  lemma StrongIff(p: string)
    ensures AllRequirementsMet(p) <==> |p| >= 8 && HasDigit(p) && HasUpper(p)
  {
    var rs := PasswordRequirements(p);
    if |p| >= 8 && HasDigit(p) && HasUpper(p) {
      forall i | 0 <= i < |rs| ensures rs[i].met {
      }
    }
  }

  /** Passwords the checklist accepts. */
  lemma StrongExamples()
    ensures AllRequirementsMet("Secret123")
    ensures AllRequirementsMet("Secret12")
  {
    StrongIff("Secret123");
    assert IsUpper("Secret123"[0]) && IsDigit("Secret123"[6]);
    StrongIff("Secret12");
    assert IsUpper("Secret12"[0]) && IsDigit("Secret12"[6]);
  }

  /** Passwords the checklist refuses: one without a capital letter, one of
      seven characters. */
  lemma WeakExamples()
    ensures !AllRequirementsMet("secret123")
    ensures !AllRequirementsMet("Short1A")
  {
    StrongIff("secret123");
    var p := "secret123";
    assert forall i :: 0 <= i < |p| ==> !IsUpper(p[i]);
    StrongIff("Short1A");
  }

  /** The profile fields the page loads. */
  datatype Profile = Profile(fullName: string, username: string)

  datatype PasswordError = NotStrong | Mismatch | SameAsName
  {
    function ErrorToast(): (t: Toast)
      ensures t.Error?
    {
      match this
      case NotStrong => Error("Password is not strong enough", "Please meet all the password requirements.")
      case Mismatch => Error("Passwords do not match", "Please ensure the new password and confirmation match.")
      case SameAsName => Error("Weak Password", "Password cannot be your username or full name.")
    }
  }

  /** `handleChangePassword`'s checks, in order: strength, then the
      confirmation, then the password must be neither the username nor the
      full name (with no profile loaded it can equal neither). */
  function CheckNewPassword(p: string, confirm: string, profile: Option<Profile>): (r: Result<(), PasswordError>)
    ensures !AllRequirementsMet(p) <==> r == Err(NotStrong)
    ensures r == Err(Mismatch) <==> AllRequirementsMet(p) && p != confirm
    ensures r == Err(SameAsName) <==>
      AllRequirementsMet(p) && p == confirm && profile.Some? && (p == profile.value.username || p == profile.value.fullName)
    ensures r.Ok? <==> AllRequirementsMet(p) && p == confirm && (profile.None? || (p != profile.value.username && p != profile.value.fullName))
  {
    if !AllRequirementsMet(p) then Err(NotStrong)
    else if p != confirm then Err(Mismatch)
    else if profile.Some? && (p == profile.value.username || p == profile.value.fullName) then Err(SameAsName)
    else Ok(())
  }

  /** One password change: whether `updateUser` was called, the notification,
      and whether the fields are cleared (only after a successful update). */
  datatype PasswordOutcome = PasswordOutcome(updated: bool, toast: Toast, cleared: bool)

  function ChangePasswordOutcome(p: string, confirm: string, profile: Option<Profile>, reply: Reply<()>): (o: PasswordOutcome)
    ensures o.updated <==> CheckNewPassword(p, confirm, profile).Ok?
    ensures o.cleared <==> o.updated && reply.Data?
  {
    match CheckNewPassword(p, confirm, profile)
    case Err(e) => PasswordOutcome(false, e.ErrorToast(), false)
    case Ok(_) =>
      if reply.Failed? then PasswordOutcome(true, Error("Failed to update password", reply.message), false)
      else PasswordOutcome(true, Success("Password Updated!", "Your password has been changed successfully. You will remain logged in."), true)
  }

  /** The notification of a password change: the first failed check's, the
      backend's message when the update fails, a success notice otherwise. */
  lemma ChangePasswordToast(p: string, confirm: string, profile: Option<Profile>, reply: Reply<()>)
    ensures var o := ChangePasswordOutcome(p, confirm, profile, reply);
      && (CheckNewPassword(p, confirm, profile).Err? ==> o.toast == CheckNewPassword(p, confirm, profile).error.ErrorToast())
      && (o.updated && reply.Failed? ==> o.toast == Error("Failed to update password", reply.message))
      && (o.cleared ==> o.toast.Success?)
  {
  }

  const TakenMarker: string := "is already taken"

  /** The description of a failed `update_profile`: a message mentioning that
      the name is taken is replaced by one naming the username tried. */
  function ProfileErrorText(message: string, username: string): (d: string)
    ensures Contains(message, TakenMarker) ==> d == "Username \"" + username + "\" is already taken. Please choose another."
    ensures !Contains(message, TakenMarker) ==> d == message
  {
    if message != "" && Contains(message, TakenMarker) then
      "Username \"" + username + "\" is already taken. Please choose another."
    else message
  }

  /** The rewritten message names the username that was refused. */
  lemma TakenMessageNamesUsername(message: string, username: string)
    requires Contains(message, TakenMarker)
    ensures Contains(ProfileErrorText(message, username), username)
  {
    var d := ProfileErrorText(message, username);
    var pre := "Username \"";
    assert d[|pre|..|pre| + |username|] == username;
    assert OccursAt(d, username, |pre|);
    ContainsIff(d, username);
  }

  /** One profile save: whether `update_profile` was called (only for a
      username of 3 characters or more) and the notification. */
  datatype ProfileOutcome = ProfileOutcome(called: bool, toast: Toast)

  function SaveProfileOutcome(username: string, reply: Reply<()>): (o: ProfileOutcome)
    ensures o.called <==> |username| >= 3
    ensures !o.called ==> o.toast == Error("Validation Error", "Username must be at least 3 characters long.")
    ensures o.called && reply.Failed? ==> o.toast == Error("Failed to update profile", ProfileErrorText(reply.message, username))
    ensures o.called && reply.Data? ==> o.toast.Success?
  {
    if |username| < 3 then ProfileOutcome(false, Error("Validation Error", "Username must be at least 3 characters long."))
    else if reply.Failed? then ProfileOutcome(true, Error("Failed to update profile", ProfileErrorText(reply.message, username)))
    else ProfileOutcome(true, Success("Profile updated!", "Your profile has been saved successfully."))
  }

  class SettingsPage {
    var currentProfile: Option<Profile>
    var fullName: string
    var username: string
    var loading: bool
    var isSubmittingProfile: bool
    var newPassword: string
    var confirmNewPassword: string
    var isSubmittingPassword: bool

    constructor ()
      ensures currentProfile.None? && fullName == "" && username == "" && loading
      ensures !isSubmittingProfile && newPassword == "" && confirmNewPassword == "" && !isSubmittingPassword
    {
      currentProfile := None;
      fullName := "";
      username := "";
      loading := true;
      isSubmittingProfile := false;
      newPassword := "";
      confirmNewPassword := "";
      isSubmittingPassword := false;
    }

    /** `fetchProfile` finishing: a row fills the form; "no row" warns; any
        other failure reports; loading ends either way. */
    method ProfileLoaded(reply: Reply<Option<Profile>>) returns (t: Option<Toast>)
      modifies this
      ensures !loading
      ensures reply.Data? && reply.data.Some? ==>
        currentProfile == reply.data && fullName == reply.data.value.fullName
        && username == reply.data.value.username && t.None?
      ensures reply.Data? && reply.data.None? ==>
        t == Some(Warning("Profile not found", "Your profile data could not be loaded. Please ensure you have completed signup."))
      ensures reply.Failed? ==> t == Some(Error("Failed to load profile", reply.message))
      ensures !(reply.Data? && reply.data.Some?) ==>
        currentProfile == old(currentProfile) && fullName == old(fullName) && username == old(username)
      ensures isSubmittingProfile == old(isSubmittingProfile) && isSubmittingPassword == old(isSubmittingPassword)
      ensures newPassword == old(newPassword) && confirmNewPassword == old(confirmNewPassword)
    {
      t := None;
      if reply.Failed? {
        t := Some(Error("Failed to load profile", reply.message));
      } else if reply.data.Some? {
        var p := reply.data.value;
        currentProfile := Some(p);
        fullName := p.fullName;
        username := p.username;
      } else {
        t := Some(Warning("Profile not found", "Your profile data could not be loaded. Please ensure you have completed signup."));
      }
      loading := false;
    }

    /** `handleSaveProfile`: the flag, raised while the handler runs, is
        lowered through `finally` on every path, the early validation return
        included; only that final value is modelled. */
    method HandleSaveProfile(reply: Reply<()>) returns (o: ProfileOutcome)
      modifies this
      ensures o == SaveProfileOutcome(old(username), reply)
      ensures !isSubmittingProfile
      ensures currentProfile == old(currentProfile) && fullName == old(fullName) && username == old(username)
      ensures loading == old(loading) && isSubmittingPassword == old(isSubmittingPassword)
      ensures newPassword == old(newPassword) && confirmNewPassword == old(confirmNewPassword)
    {
      o := SaveProfileOutcome(username, reply);
      isSubmittingProfile := false;
    }

    /** `handleChangePassword`: the flag, raised while the handler runs, ends
        false on every path; both password fields are cleared only after a
        successful update. */
    method HandleChangePassword(reply: Reply<()>) returns (o: PasswordOutcome)
      modifies this
      ensures o == ChangePasswordOutcome(old(newPassword), old(confirmNewPassword), old(currentProfile), reply)
      ensures !isSubmittingPassword
      ensures o.cleared ==> newPassword == "" && confirmNewPassword == ""
      ensures !o.cleared ==> newPassword == old(newPassword) && confirmNewPassword == old(confirmNewPassword)
      ensures currentProfile == old(currentProfile) && fullName == old(fullName) && username == old(username)
      ensures loading == old(loading) && isSubmittingProfile == old(isSubmittingProfile)
    {
      o := ChangePasswordOutcome(newPassword, confirmNewPassword, currentProfile, reply);
      ClearPasswords(o.cleared);
      isSubmittingPassword := false;
    }

    /** Both password fields emptied, or left as they are. */
    method ClearPasswords(clear: bool)
      modifies this
      ensures newPassword == (if clear then "" else old(newPassword))
      ensures confirmNewPassword == (if clear then "" else old(confirmNewPassword))
      ensures currentProfile == old(currentProfile) && fullName == old(fullName) && username == old(username)
      ensures loading == old(loading) && isSubmittingProfile == old(isSubmittingProfile)
      ensures isSubmittingPassword == old(isSubmittingPassword)
    {
      if clear {
        newPassword := "";
        confirmNewPassword := "";
      }
    }
  }
}
