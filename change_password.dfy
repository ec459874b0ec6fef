/**
 * The change-password dialog: two password fields and an error line. A
 * confirmation succeeds only when both fields are non-empty and equal
 * (compared exactly, without trimming); it then clears the error and both
 * fields and hands the pair to the caller.
 */
module ChangePassword {
  import opened Wrappers

  const BothRequired := "Введіть обидва поля пароля"
  const Mismatch := "Паролі не співпадають"

  /** The error a confirmation of `(password, confirmPassword)` reports, if any; emptiness is checked first. */
  function Validate(password: string, confirmPassword: string): (e: Option<string>)
    ensures e == Some(BothRequired) <==> password == "" || confirmPassword == ""
    ensures e == Some(Mismatch) <==> password != "" && confirmPassword != "" && password != confirmPassword
    ensures e.None? <==> password != "" && password == confirmPassword
  {
    if password == "" || confirmPassword == "" then Some(BothRequired)
    else if password != confirmPassword then Some(Mismatch)
    else None
  }

  /** Blank characters are not trimmed: a blank password is accepted, a trailing blank makes a mismatch. */
  lemma NoTrimming()
    ensures Validate(" ", " ").None?
    ensures Validate("secret ", "secret") == Some(Mismatch)
  {
  }

  class Modal {
    var password: string
    var confirmPassword: string
    var error: string

    constructor ()
      ensures password == "" && confirmPassword == "" && error == ""
    {
      password := "";
      confirmPassword := "";
      error := "";
    }

    method SetPassword(value: string)
      modifies this
      ensures password == value
      ensures confirmPassword == old(confirmPassword) && error == old(error)
    {
      password := value;
    }

    method SetConfirmPassword(value: string)
      modifies this
      ensures confirmPassword == value
      ensures password == old(password) && error == old(error)
    {
      confirmPassword := value;
    }

    /**
     * `handleConfirm`: on a validation error the error line shows it, the
     * fields are kept and nothing is confirmed; otherwise the pair is
     * confirmed, the error is cleared and both fields are emptied.
     */
    method HandleConfirm() returns (confirmed: Option<(string, string)>)
      modifies this
      ensures var e := Validate(old(password), old(confirmPassword));
        if e.Some? then
          confirmed.None? && error == e.value &&
          password == old(password) && confirmPassword == old(confirmPassword)
        else
          confirmed == Some((old(password), old(confirmPassword))) &&
          error == "" && password == "" && confirmPassword == ""
      ensures confirmed.Some? ==> confirmed.value.0 != "" && confirmed.value.0 == confirmed.value.1
    {
      if password == "" || confirmPassword == "" {
        error := BothRequired;
        return None;
      }
      if password != confirmPassword {
        error := Mismatch;
        return None;
      }
      error := "";
      confirmed := Some((password, confirmPassword));
      password := "";
      confirmPassword := "";
    }
  }
}
