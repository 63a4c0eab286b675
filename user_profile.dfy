/** The profile panel: editing the signed-in user's name and email, and changing the password. */
module UserProfile {
  import opened Wrappers
  import opened Auth

  datatype MessageKind = SuccessMessage | ErrorMessage
  datatype Message = Message(kind: MessageKind, text: string)

  datatype PasswordForm = PasswordForm(oldPassword: string, newPassword: string, confirmPassword: string)

  const EMPTY_PASSWORDS: PasswordForm := PasswordForm("", "", "")

  const PROFILE_SAVED: Message := Message(SuccessMessage, "资料更新成功")
  const NEW_PASSWORD_MISMATCH: Message := Message(ErrorMessage, "两次输入的密码不一致")
  const NEW_PASSWORD_TOO_SHORT: Message := Message(ErrorMessage, "新密码长度至少6位")
  const PASSWORD_CHANGED: Message := Message(SuccessMessage, "密码修改成功")
  const PASSWORD_CHANGE_FAILED: Message := Message(ErrorMessage, "密码修改失败")

  /** The patch the profile form sends: the edited username and email, nothing else. */
  function ProfilePatch(username: string, email: string): (r: UserPatch)
    ensures r.username == Some(username) && r.email == Some(email)
    ensures r.(username := None, email := None) == UserPatch(None, None, None, None, None, None, None)
  {
    UserPatch(None, Some(username), Some(email), None, None, None, None)
  }

  /** `UserProfile`'s state: which form is open, what the forms hold, and the last message. */
  class ProfilePanel {
    var isEditing: bool
    var isChangingPassword: bool
    var username: string
    var email: string
    var passwords: PasswordForm
    var message: Option<Message>

    /** The panel opens with both forms closed, the profile form on the user's name and email (empty when signed out). */
    constructor (auth: AuthProvider)
      ensures !isEditing && !isChangingPassword && passwords == EMPTY_PASSWORDS && message == None
      ensures auth.user.Some? ==> username == auth.user.value.username && email == auth.user.value.email
      ensures auth.user.None? ==> username == "" && email == ""
    {
      isEditing := false;
      isChangingPassword := false;
      username := if auth.user.Some? then auth.user.value.username else "";
      email := if auth.user.Some? then auth.user.value.email else "";
      passwords := EMPTY_PASSWORDS;
      message := None;
    }

    /**
     * `handleSaveProfile`: nothing at all when signed out; otherwise the
     * name and email are saved, the success message shown and the form closed.
     */
    method HandleSaveProfile(auth: AuthProvider)
      modifies this, auth
      ensures old(auth.user).None? ==> unchanged(this) && unchanged(auth)
      ensures old(auth.user).Some? ==>
        var patch := ProfilePatch(old(username), old(email));
        && auth.user == Some(ApplyPatch(old(auth.user).value, patch))
        && auth.users == UpdateStored(old(auth.users), old(auth.user).value.id, patch)
        && auth.error == None
        && message == Some(PROFILE_SAVED) && !isEditing
        && isChangingPassword == old(isChangingPassword) && passwords == old(passwords)
        && username == old(username) && email == old(email)
    {
      if auth.user.None? {
        return;
      }
      var ok := auth.UpdateProfile(ProfilePatch(username, email));
      if ok {
        message := Some(PROFILE_SAVED);
        isEditing := false;
      }
    }

    /**
     * `handleChangePassword`: a new password that differs from its
     * confirmation, or is shorter than six characters, is refused here
     * without asking the provider; otherwise a successful change shows its
     * message, clears the three fields and closes the form, and a refused one
     * shows the failure and leaves the form as it was; the provider's error
     * is cleared by a change and reads `原密码错误` after a refused one.
     */
    method HandleChangePassword(auth: AuthProvider)
      modifies this, auth
      ensures isEditing == old(isEditing) && username == old(username) && email == old(email)
      ensures auth.user == old(auth.user)
      ensures old(passwords.newPassword) != old(passwords.confirmPassword) ==>
        && message == Some(NEW_PASSWORD_MISMATCH) && unchanged(auth)
        && passwords == old(passwords) && isChangingPassword == old(isChangingPassword)
      ensures old(passwords.newPassword) == old(passwords.confirmPassword) && |old(passwords.newPassword)| < 6 ==>
        && message == Some(NEW_PASSWORD_TOO_SHORT) && unchanged(auth)
        && passwords == old(passwords) && isChangingPassword == old(isChangingPassword)
      ensures old(passwords.newPassword) == old(passwords.confirmPassword) && |old(passwords.newPassword)| >= 6 ==>
        var changed := old(auth.user).Some?
          && PasswordChange(old(auth.users), old(auth.user).value.id, old(passwords.oldPassword), old(passwords.newPassword)).Success?;
        && (changed ==>
             && auth.users == PasswordChange(old(auth.users), old(auth.user).value.id, old(passwords.oldPassword), old(passwords.newPassword)).value
             && auth.error == None
             && message == Some(PASSWORD_CHANGED) && passwords == EMPTY_PASSWORDS && !isChangingPassword)
        && (!changed ==>
             && auth.users == old(auth.users)
             && auth.error == (if old(auth.user).None? then old(auth.error) else Some(WRONG_OLD_PASSWORD))
             && message == Some(PASSWORD_CHANGE_FAILED) && passwords == old(passwords)
             && isChangingPassword == old(isChangingPassword))
    {
      if passwords.newPassword != passwords.confirmPassword {
        message := Some(NEW_PASSWORD_MISMATCH);
        return;
      }
      if |passwords.newPassword| < 6 {
        message := Some(NEW_PASSWORD_TOO_SHORT);
        return;
      }
      var ok := auth.ChangePassword(passwords.oldPassword, passwords.newPassword);
      if ok {
        message := Some(PASSWORD_CHANGED);
        isChangingPassword := false;
        passwords := EMPTY_PASSWORDS;
      } else {
        message := Some(PASSWORD_CHANGE_FAILED);
      }
    }
  }
}
