/**
 * The account panel: changing the password after an ordered chain of
 * checks, and deleting the account behind a confirmation. The identity
 * provider's answers (is there a current user, did the update or the
 * deletion succeed, did the user confirm) are parameters.
 */
module AccountModal {
  import opened Types

  const NoUserText: string := "Utilisateur non trouvé. Veuillez vous reconnecter."
  const EmptyFieldText: string := "Veuillez remplir tous les champs."
  const MismatchText: string := "Les mots de passe ne correspondent pas."
  const TooShortText: string := "Le mot de passe doit contenir au moins 6 caractères."
  const UpdatedText: string := "Mot de passe mis à jour avec succès !"
  const UpdateFailedText: string := "Erreur. Vous devez peut-être vous reconnecter pour effectuer cette action."

  const MinPasswordLength: nat := 6

  datatype MessageKind = SuccessMessage | ErrorMessage
  datatype PasswordMessage = PasswordMessage(kind: MessageKind, text: string)

  /**
   * The checks before a password update, in order: a current user, both
   * fields filled, the fields equal, at least six characters. The result is
   * the message of the first check that fails, or None when all pass.
   */
  function ValidatePasswordChange(hasCurrentUser: bool, newPassword: string, confirmPassword: string)
    : (r: Option<string>)
    ensures r.None? <==>
      hasCurrentUser && newPassword != "" && newPassword == confirmPassword
      && |newPassword| >= MinPasswordLength
    ensures !hasCurrentUser ==> r == Some(NoUserText)
    ensures hasCurrentUser && (newPassword == "" || confirmPassword == "") ==> r == Some(EmptyFieldText)
    ensures hasCurrentUser && newPassword != "" && confirmPassword != "" && newPassword != confirmPassword
      ==> r == Some(MismatchText)
    ensures hasCurrentUser && newPassword != "" && newPassword == confirmPassword && |newPassword| < MinPasswordLength
      ==> r == Some(TooShortText)
  {
    if !hasCurrentUser then Some(NoUserText)
    else if newPassword == "" || confirmPassword == "" then Some(EmptyFieldText)
    else if newPassword != confirmPassword then Some(MismatchText)
    else if |newPassword| < MinPasswordLength then Some(TooShortText)
    else None
  }

  /** What a click on "delete my account" leads to. */
  datatype DeleteEffects = DeleteEffects(
    deleteRequested: bool,
    onDeleteAccountCalled: bool,
    onCloseCalled: bool,
    alerted: bool)

  /**
   * Deletion: requested only once confirmed and with a current user; the
   * application's callback and the close only after it succeeded; an alert
   * when it failed.
   */
  function HandleDelete(confirmed: bool, hasCurrentUser: bool, deleteSucceeded: bool): (e: DeleteEffects)
    ensures e.deleteRequested <==> confirmed && hasCurrentUser
    ensures e.onDeleteAccountCalled <==> e.deleteRequested && deleteSucceeded
    ensures e.onCloseCalled <==> e.onDeleteAccountCalled
    ensures e.alerted <==> e.deleteRequested && !deleteSucceeded
  {
    if confirmed && hasCurrentUser then
      DeleteEffects(true, deleteSucceeded, deleteSucceeded, !deleteSucceeded)
    else DeleteEffects(false, false, false, false)
  }

  class AccountModal {
    var newPassword: string
    var confirmPassword: string
    var passwordMessage: Option<PasswordMessage>
    var isPasswordChanging: bool

    constructor ()
      ensures newPassword == "" && confirmPassword == "" && passwordMessage == None
      ensures !isPasswordChanging
    {
      newPassword := "";
      confirmPassword := "";
      passwordMessage := None;
      isPasswordChanging := false;
    }

    method EditNewPassword(value: string)
      modifies this
      ensures newPassword == value
      ensures confirmPassword == old(confirmPassword) && passwordMessage == old(passwordMessage)
      ensures isPasswordChanging == old(isPasswordChanging)
    {
      newPassword := value;
    }

    method EditConfirmPassword(value: string)
      modifies this
      ensures confirmPassword == value
      ensures newPassword == old(newPassword) && passwordMessage == old(passwordMessage)
      ensures isPasswordChanging == old(isPasswordChanging)
    {
      confirmPassword := value;
    }

    /**
     * Submitting the form up to the update call. The message is cleared
     * first; a failing check sets its error and sends nothing; otherwise the
     * panel is marked busy and the new password is sent, which is then at
     * least six characters long and equal to its confirmation.
     */
    method BeginPasswordChange(hasCurrentUser: bool) returns (sent: Option<string>)
      modifies this
      ensures var failed := ValidatePasswordChange(hasCurrentUser, newPassword, confirmPassword);
        failed.Some? ==>
          sent == None && passwordMessage == Some(PasswordMessage(ErrorMessage, failed.value))
          && isPasswordChanging == old(isPasswordChanging)
      ensures var failed := ValidatePasswordChange(hasCurrentUser, newPassword, confirmPassword);
        failed.None? ==> sent == Some(newPassword) && passwordMessage == None && isPasswordChanging
      ensures sent.Some? ==> |sent.value| >= MinPasswordLength && sent.value == confirmPassword
      ensures newPassword == old(newPassword) && confirmPassword == old(confirmPassword)
    {
      passwordMessage := None;
      var failed := ValidatePasswordChange(hasCurrentUser, newPassword, confirmPassword);
      if failed.Some? {
        passwordMessage := Some(PasswordMessage(ErrorMessage, failed.value));
        sent := None;
        return;
      }
      isPasswordChanging := true;
      sent := Some(newPassword);
    }

    /**
     * The update call settled. Success clears both fields and reports
     * success; failure keeps the fields and reports an error. Either way the
     * panel is no longer busy.
     */
    method FinishPasswordChange(updateSucceeded: bool)
      modifies this
      ensures !isPasswordChanging
      ensures updateSucceeded ==>
        newPassword == "" && confirmPassword == ""
        && passwordMessage == Some(PasswordMessage(SuccessMessage, UpdatedText))
      ensures !updateSucceeded ==>
        newPassword == old(newPassword) && confirmPassword == old(confirmPassword)
        && passwordMessage == Some(PasswordMessage(ErrorMessage, UpdateFailedText))
    {
      if updateSucceeded {
        passwordMessage := Some(PasswordMessage(SuccessMessage, UpdatedText));
        newPassword := "";
        confirmPassword := "";
      } else {
        passwordMessage := Some(PasswordMessage(ErrorMessage, UpdateFailedText));
      }
      isPasswordChanging := false;
    }
  }
}
