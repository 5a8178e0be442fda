/** The administrator's profile card (AdminProfile): a read-only view that
    switches to an edit mode where a new password can be typed twice. */
module Profile {

  datatype AdminUser = AdminUser(name: string, email: string)

  datatype UserField = NameInput | EmailInput

  const MismatchMessage := "As senhas não coincidem."

  /** The save check: a new password, when one is typed, must equal its confirmation. */
  predicate PasswordAccepted(password: string, confirmPassword: string)
  {
    password == "" || password == confirmPassword
  }

  class AdminProfile {
    var adminUser: AdminUser
    var isEditing: bool
    var password: string
    var confirmPassword: string
    var passwordError: string

    constructor ()
      ensures adminUser == AdminUser("Admin", "admin@personalistar.com")
      ensures !isEditing && password == "" && confirmPassword == "" && passwordError == ""
    {
      adminUser := AdminUser("Admin", "admin@personalistar.com");
      isEditing := false;
      password, confirmPassword, passwordError := "", "", "";
    }

    /** The "Editar" button of the read-only view. */
    method StartEditing()
      modifies this
      ensures isEditing
      ensures adminUser == old(adminUser) && password == old(password)
      ensures confirmPassword == old(confirmPassword) && passwordError == old(passwordError)
    {
      isEditing := true;
    }

    method HandleChange(field: UserField, value: string)
      modifies this
      ensures adminUser == match field
        case NameInput => old(adminUser).(name := value)
        case EmailInput => old(adminUser).(email := value)
      ensures isEditing == old(isEditing) && password == old(password)
      ensures confirmPassword == old(confirmPassword) && passwordError == old(passwordError)
    {
      adminUser := match field
        case NameInput => adminUser.(name := value)
        case EmailInput => adminUser.(email := value);
    }

    method SetPassword(value: string)
      modifies this
      ensures password == value
      ensures adminUser == old(adminUser) && isEditing == old(isEditing)
      ensures confirmPassword == old(confirmPassword) && passwordError == old(passwordError)
    {
      password := value;
    }

    method SetConfirmPassword(value: string)
      modifies this
      ensures confirmPassword == value
      ensures adminUser == old(adminUser) && isEditing == old(isEditing)
      ensures password == old(password) && passwordError == old(passwordError)
    {
      confirmPassword := value;
    }

    /** `handleSave`: a typed password that differs from its confirmation sets
      the error and keeps everything else as it was, edit mode included;
      otherwise both password fields are cleared and edit mode is left. */
    method HandleSave() returns (accepted: bool)
      modifies this
      ensures accepted <==> PasswordAccepted(old(password), old(confirmPassword))
      ensures !accepted ==>
        && passwordError == MismatchMessage && isEditing == old(isEditing)
        && password == old(password) && confirmPassword == old(confirmPassword)
      ensures accepted ==> passwordError == "" && !isEditing && password == "" && confirmPassword == ""
      ensures adminUser == old(adminUser)
    {
      passwordError := "";
      if password != "" && password != confirmPassword {
        passwordError := MismatchMessage;
        return false;
      }
      password := "";
      confirmPassword := "";
      isEditing := false;
      return true;
    }

    /** `handleCancel`: leaves edit mode and clears both password fields and the error. */
    method HandleCancel()
      modifies this
      ensures !isEditing && password == "" && confirmPassword == "" && passwordError == ""
      ensures adminUser == old(adminUser)
    {
      isEditing := false;
      password := "";
      confirmPassword := "";
      passwordError := "";
    }
  }
}
