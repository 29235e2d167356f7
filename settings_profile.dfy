/**
 * The settings page: the password-change form with its three ordered checks,
 * and the theme selection with its saved preference.
 */
module SettingsProfile {

  /** The shortest new password the form accepts. */
  const MinPasswordLength := 6

  datatype PasswordCheck = MissingField | Mismatch | TooShort | Changed

  /** The guards of `handlePasswordChangeSubmit`, in the order they run. */
  function CheckPasswordChange(current: string, newPassword: string, confirm: string): (r: PasswordCheck)
    ensures r == MissingField <==> current == "" || newPassword == "" || confirm == ""
    ensures r == Mismatch <==> current != "" && newPassword != "" && confirm != "" && newPassword != confirm
    ensures r == TooShort <==> current != "" && newPassword != "" && newPassword == confirm && |newPassword| < MinPasswordLength
  {
    if current == "" || newPassword == "" || confirm == "" then MissingField
    else if newPassword != confirm then Mismatch
    else if |newPassword| < MinPasswordLength then TooShort
    else Changed
  }

  /** The change is accepted exactly when all fields are filled, the two new entries agree and are long enough. */
  lemma AcceptedIff(current: string, newPassword: string, confirm: string)
    ensures CheckPasswordChange(current, newPassword, confirm) == Changed <==>
              current != "" && newPassword == confirm && |newPassword| >= MinPasswordLength
  {
  }

  /** The length bound is inclusive: six characters pass, five do not. */
  lemma LengthBoundary(current: string, newPassword: string)
    requires current != "" && |newPassword| == MinPasswordLength
    ensures CheckPasswordChange(current, newPassword, newPassword) == Changed
    ensures CheckPasswordChange(current, newPassword[..5], newPassword[..5]) == TooShort
  {
  }

  function Message(r: PasswordCheck): string {
    match r
    case MissingField => "Please fill in all password fields."
    case Mismatch => "New password and confirm password do not match."
    case TooShort => "New password must be at least 6 characters long."
    case Changed => "Password changed successfully! (This is a mock action)"
  }

  datatype PasswordField = Current | New | Confirm

  class SettingsPage {
    var currentPassword: string
    var newPassword: string
    var confirmPassword: string
    var appTheme: string
    /** `mockAppThemePreference.theme`, the stored preference. */
    var savedTheme: string

    /** The mount effect loads the stored preference into the selection. */
    constructor (storedTheme: string)
      ensures currentPassword == "" && newPassword == "" && confirmPassword == ""
      ensures appTheme == storedTheme && savedTheme == storedTheme
    {
      currentPassword := "";
      newPassword := "";
      confirmPassword := "";
      appTheme := storedTheme;
      savedTheme := storedTheme;
    }

    method SetPasswordField(field: PasswordField, value: string)
      modifies this`currentPassword, this`newPassword, this`confirmPassword
      ensures currentPassword == (if field == Current then value else old(currentPassword))
      ensures newPassword == (if field == New then value else old(newPassword))
      ensures confirmPassword == (if field == Confirm then value else old(confirmPassword))
    {
      match field
      case Current => currentPassword := value;
      case New => newPassword := value;
      case Confirm => confirmPassword := value;
    }

    /** `handlePasswordChangeSubmit`; the alert becomes the returned message. */
    method PasswordChangeSubmit() returns (result: PasswordCheck, message: string)
      modifies this`currentPassword, this`newPassword, this`confirmPassword
      ensures result == CheckPasswordChange(old(currentPassword), old(newPassword), old(confirmPassword))
      ensures message == Message(result)
      ensures result == Changed ==> currentPassword == "" && newPassword == "" && confirmPassword == ""
      ensures result != Changed ==> unchanged(this)
    {
      if currentPassword == "" || newPassword == "" || confirmPassword == "" {
        result := MissingField;
      } else if newPassword != confirmPassword {
        result := Mismatch;
      } else if |newPassword| < MinPasswordLength {
        result := TooShort;
      } else {
        result := Changed;
        currentPassword := "";
        newPassword := "";
        confirmPassword := "";
      }
      message := Message(result);
    }

    /** `handleThemeChange`: only the selection moves. */
    method ThemeChange(value: string)
      modifies this`appTheme
      ensures appTheme == value
    {
      appTheme := value;
    }

    /** `handleThemeSubmit`: the selection becomes the saved preference. */
    method ThemeSubmit()
      modifies this`savedTheme
      ensures savedTheme == appTheme
    {
      savedTheme := appTheme;
    }
  }
}
