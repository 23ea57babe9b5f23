/**
 * frontend/src/pages/Profile.jsx: the profile editor over its built-in
 * user record, with the new-password confirmation check.
 */
module ProfilePage {

  const Mismatch := "Passwords do not match."
  const Masked := "********"

  /** The keys of `userData`. */
  const Fields: set<string> := {"firstName", "lastName", "email", "passwordDisplay"}

  /** The fields rendered as inputs wired to `handleChange` (lines 146-149): the email is shown read-only. */
  const Editable: set<string> := {"firstName", "lastName"}

  /** `initialUserData` (lines 4-9). */
  const InitialUserData: map<string, string> :=
    map["firstName" := "Alex", "lastName" := "Johnson", "email" := "alex.j@example.com", "passwordDisplay" := Masked]

  /** The new-password check of line 22: a non-empty new password must equal its confirmation. */
  predicate PasswordsAgree(newPassword: string, confirmPassword: string) {
    newPassword == "" || newPassword == confirmPassword
  }

  /** `userData` after a save (lines 29-40). */
  function Saved(userData: map<string, string>, newPassword: string, firstName: string, lastName: string): map<string, string> {
    var named := userData["firstName" := firstName]["lastName" := lastName];
    if newPassword != "" then named["passwordDisplay" := Masked] else named
  }

  /**
   * A save replaces the two names and nothing else: the email and the
   * password placeholder stay as they were, whether or not a new password
   * was given.
   */
  lemma SavedKeepsTheRest(userData: map<string, string>, newPassword: string, firstName: string, lastName: string)
    requires userData.Keys == Fields && userData["passwordDisplay"] == Masked
    ensures Saved(userData, newPassword, firstName, lastName) ==
      userData["firstName" := firstName]["lastName" := lastName]
  {
    if newPassword != "" {
      var named := userData["firstName" := firstName]["lastName" := lastName];
      assert named["passwordDisplay" := Masked] == named;
    }
  }

  class Profile {
    var isEditing: bool
    var userData: map<string, string>
    var newPassword: string
    var confirmPassword: string
    var passwordError: string

    /** The record keeps its four fields, its email and the masked password display. */
    ghost predicate Valid()
      reads this
    {
      && userData.Keys == Fields
      && userData["email"] == InitialUserData["email"]
      && userData["passwordDisplay"] == Masked
    }

    /** The initial state (lines 12-16). */
    constructor ()
      ensures Valid()
      ensures !isEditing && userData == InitialUserData
      ensures newPassword == "" && confirmPassword == "" && passwordError == ""
    {
      isEditing := false;
      userData := InitialUserData;
      newPassword := "";
      confirmPassword := "";
      passwordError := "";
    }

    /** The Edit button (line 133). */
    method StartEditing()
      modifies this
      ensures isEditing
      ensures userData == old(userData) && newPassword == old(newPassword)
      ensures confirmPassword == old(confirmPassword) && passwordError == old(passwordError)
    {
      isEditing := true;
    }

    /** The password inputs' onChange (lines 99, 106). */
    method SetPasswords(newValue: string, confirmValue: string)
      modifies this
      ensures newPassword == newValue && confirmPassword == confirmValue
      ensures isEditing == old(isEditing) && userData == old(userData) && passwordError == old(passwordError)
    {
      newPassword := newValue;
      confirmPassword := confirmValue;
    }

    /** `handleChange` (lines 53-56) on one of the name inputs: that field changes, the others stay. */
    method HandleChange(name: string, value: string)
      requires Valid() && name in Editable
      modifies this
      ensures Valid()
      ensures userData == old(userData)[name := value]
      ensures isEditing == old(isEditing) && newPassword == old(newPassword)
      ensures confirmPassword == old(confirmPassword) && passwordError == old(passwordError)
    {
      userData := userData[name := value];
    }

    /**
     * `handleSave` (lines 18-44). `firstName` and `lastName` are the values
     * of the form's name inputs. A mismatched new password only sets the
     * error; otherwise the names are saved, the password fields cleared and
     * editing ends.
     */
    method HandleSave(firstName: string, lastName: string)
      requires Valid()
      modifies this
      ensures Valid()
      ensures !PasswordsAgree(old(newPassword), old(confirmPassword)) ==>
        && passwordError == Mismatch
        && isEditing == old(isEditing) && userData == old(userData)
        && newPassword == old(newPassword) && confirmPassword == old(confirmPassword)
      ensures PasswordsAgree(old(newPassword), old(confirmPassword)) ==>
        && passwordError == "" && !isEditing
        && userData == old(userData)["firstName" := firstName]["lastName" := lastName]
        && newPassword == "" && confirmPassword == ""
    {
      if newPassword != "" && newPassword != confirmPassword {
        passwordError := Mismatch;
        return;
      }
      passwordError := "";
      SavedKeepsTheRest(userData, newPassword, firstName, lastName);
      userData := Saved(userData, newPassword, firstName, lastName);
      newPassword := "";
      confirmPassword := "";
      isEditing := false;
    }

    /**
     * `handleCancel` (lines 46-51): editing ends and the password fields
     * and error are cleared, but the record is not restored, so name edits
     * made since editing began stay.
     */
    method HandleCancel()
      requires Valid()
      modifies this
      ensures Valid()
      ensures !isEditing && newPassword == "" && confirmPassword == "" && passwordError == ""
      ensures userData == old(userData)
    {
      isEditing := false;
      newPassword := "";
      confirmPassword := "";
      passwordError := "";
    }
  }
}
