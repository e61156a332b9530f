/** The settings page (src/app/settings/page.tsx): an accordion of two sections, the
    profile form and the password form. Each form's handler validates locally, calls the
    backend, and reports a message; the backend's answers are parameters of the steps that
    complete them. */
module SettingsPage {
  import opened Base
  import opened Types

  const MismatchText := "New passwords do not match."
  const EmptyPasswordText := "Password cannot be empty."
  const PasswordChangedText := "Password changed successfully!"
  const ProfileUpdatedText := "Profile updated successfully!"

  datatype Section = ProfileSection | PrivacySection

  datatype MessageKind = Success | Failure
  datatype Message = Message(kind: MessageKind, text: string)

  /** The update the profile form sends: `{ full_name, updated_at }` for the row `id`. */
  datatype ProfileUpdate = ProfileUpdate(id: string, fullName: string, updatedAt: string)

  /** A click on a section header: the open section closes, any other section opens. So
      `clicked` is open afterwards exactly when it was not open before, and no other section
      is ever open at the same time. */
  function Toggle(open: Option<Section>, clicked: Section): (r: Option<Section>)
    ensures r == Some(clicked) <==> open != Some(clicked)
    ensures r == None <==> open == Some(clicked)
  {
    if open == Some(clicked) then None else Some(clicked)
  }

  /** The local checks before any backend call, in order: a mismatch is reported first,
      then an empty password; none when the two entries agree and are non-empty. */
  function PasswordProblem(newPassword: string, confirm: string): (r: Option<string>)
    ensures newPassword != confirm ==> r == Some(MismatchText)
    ensures newPassword == confirm && newPassword == "" ==> r == Some(EmptyPasswordText)
    ensures r.None? <==> newPassword == confirm && newPassword != ""
  {
    if newPassword != confirm then Some(MismatchText)
    else if newPassword == "" then Some(EmptyPasswordText)
    else None
  }

  class SettingsForm {
    var openSection: Option<Section>
    var fullName: string
    var profileMessage: Option<Message>
    var profileLoading: bool
    var newPassword: string
    var confirmPassword: string
    var passwordMessage: Option<Message>
    var passwordLoading: bool

    /** The `useState` initial values: the profile section open, everything else empty. */
    constructor ()
      ensures openSection == Some(ProfileSection) && fullName == ""
      ensures profileMessage.None? && !profileLoading
      ensures newPassword == "" && confirmPassword == ""
      ensures passwordMessage.None? && !passwordLoading
    {
      openSection := Some(ProfileSection);
      fullName := "";
      profileMessage, profileLoading := None, false;
      newPassword, confirmPassword := "", "";
      passwordMessage, passwordLoading := None, false;
    }

    method ToggleSection(clicked: Section)
      modifies this`openSection
      ensures openSection == Toggle(old(openSection), clicked)
    {
      openSection := if openSection == Some(clicked) then None else Some(clicked);
    }

    /** The effect on a new profile: the name field is overwritten only by a truthy
        `full_name`; otherwise what the user typed stays. */
    method ProfileChanged(profile: Option<Profile>)
      modifies this`fullName
      ensures profile.Some? && Truthy(profile.value.fullName) ==> fullName == profile.value.fullName.value
      ensures !(profile.Some? && Truthy(profile.value.fullName)) ==> fullName == old(fullName)
    {
      if profile.Some? && Truthy(profile.value.fullName) {
        fullName := profile.value.fullName.value;
      }
    }

    method SetFullName(value: string)
      modifies this`fullName
      ensures fullName == value
    {
      fullName := value;
    }

    method SetNewPassword(value: string)
      modifies this`newPassword
      ensures newPassword == value
    {
      newPassword := value;
    }

    method SetConfirmPassword(value: string)
      modifies this`confirmPassword
      ensures confirmPassword == value
    {
      confirmPassword := value;
    }

    /** `handleProfileUpdate` up to its await, at clock time `now`: without a user nothing
        happens and nothing is sent; with one, the form goes in flight, the message is
        cleared and the typed name is sent for that user's row. */
    method ProfileSubmitStart(user: Option<User>, now: string) returns (update: Option<ProfileUpdate>)
      requires !profileLoading
      modifies this`profileLoading, this`profileMessage
      ensures user.None? ==> update.None? && profileLoading == old(profileLoading) && profileMessage == old(profileMessage)
      ensures user.Some? ==> update == Some(ProfileUpdate(user.value.id, fullName, now))
      ensures user.Some? ==> profileLoading && profileMessage.None?
    {
      if user.None? {
        return None;
      }
      profileLoading := true;
      profileMessage := None;
      update := Some(ProfileUpdate(user.value.id, fullName, now));
    }

    /** `handleProfileUpdate` after its await: the backend's error text, or the fixed
        success text; the form is no longer in flight. */
    method ProfileSubmitFinish(error: Option<BackendError>)
      modifies this`profileLoading, this`profileMessage
      ensures error.Some? ==> profileMessage == Some(Message(Failure, error.value.message))
      ensures error.None? ==> profileMessage == Some(Message(Success, ProfileUpdatedText))
      ensures !profileLoading
    {
      if error.Some? {
        profileMessage := Some(Message(Failure, error.value.message));
      } else {
        profileMessage := Some(Message(Success, ProfileUpdatedText));
      }
      profileLoading := false;
    }

    /** `handlePasswordChange` up to its await: a local problem is reported and nothing is
        sent (the flag stays as it was); otherwise the form goes in flight, the message is
        cleared and the new password is sent. */
    method PasswordSubmitStart() returns (sent: Option<string>)
      requires !passwordLoading
      modifies this`passwordLoading, this`passwordMessage
      ensures sent.None? <==> PasswordProblem(newPassword, confirmPassword).Some?
      ensures sent.None? ==> passwordMessage == Some(Message(Failure, PasswordProblem(newPassword, confirmPassword).value))
      ensures sent.None? ==> !passwordLoading
      ensures sent.Some? ==> sent.value == newPassword && passwordLoading && passwordMessage.None?
    {
      if newPassword != confirmPassword {
        passwordMessage := Some(Message(Failure, MismatchText));
        return None;
      }
      if newPassword == "" {
        passwordMessage := Some(Message(Failure, EmptyPasswordText));
        return None;
      }
      passwordLoading := true;
      passwordMessage := None;
      sent := Some(newPassword);
    }

    /** `handlePasswordChange` after its await: an error shows its text and keeps both
        entries; success shows the fixed text and clears both entries. */
    method PasswordSubmitFinish(error: Option<BackendError>)
      modifies this`passwordLoading, this`passwordMessage, this`newPassword, this`confirmPassword
      ensures error.Some? ==> passwordMessage == Some(Message(Failure, error.value.message))
      ensures error.Some? ==> newPassword == old(newPassword) && confirmPassword == old(confirmPassword)
      ensures error.None? ==> passwordMessage == Some(Message(Success, PasswordChangedText))
      ensures error.None? ==> newPassword == "" && confirmPassword == ""
      ensures !passwordLoading
    {
      if error.Some? {
        passwordMessage := Some(Message(Failure, error.value.message));
      } else {
        passwordMessage := Some(Message(Success, PasswordChangedText));
        newPassword, confirmPassword := "", "";
      }
      passwordLoading := false;
    }
  }
}
