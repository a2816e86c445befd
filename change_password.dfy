/**
 * The change-password screen: four guards checked in order on the form, then a
 * lookup of the customer by e-mail and current password, then the update of the
 * password on the row found. The backend's two replies enter as parameters.
 */
module ChangePassword {
  import opened Wrappers
  import opened Text

  /** The alerts the save can raise, each with the title the screen shows. */
  datatype Alert =
    | NotSignedIn
    | MissingFields
    | WeakPassword
    | PasswordsDiffer
    | LookupError(message: string)
    | IncorrectPassword
    | UpdateFailed(message: string)
    | Success
  {
    function Title(): string {
      match this
      case NotSignedIn => "Not signed in"
      case MissingFields => "Missing fields"
      case WeakPassword => "Weak password"
      case PasswordsDiffer => "Passwords do not match"
      case LookupError(_) => "Error"
      case IncorrectPassword => "Incorrect password"
      case UpdateFailed(_) => "Update failed"
      case Success => "Success"
    }
  }

  /** The shortest new password accepted, counted in UTF-16 units as `length` counts. */
  const MinLength := 6

  /** The guards, in order; nothing when all of them pass. */
  function CheckInputs(email: Option<string>, current: string, newPassword: string, confirm: string): (r: Option<Alert>)
    ensures r.None? <==>
              Truthy(email) && current != "" && newPassword != "" && confirm != ""
              && |Utf16Units(newPassword)| >= MinLength && newPassword == confirm
    ensures !Truthy(email) ==> r == Some(NotSignedIn)
    ensures Truthy(email) && (current == "" || newPassword == "" || confirm == "") ==> r == Some(MissingFields)
    ensures r == Some(WeakPassword) ==> |Utf16Units(newPassword)| < MinLength
    ensures r == Some(PasswordsDiffer) ==> |Utf16Units(newPassword)| >= MinLength && newPassword != confirm
    ensures (Truthy(email) && current != "" && newPassword != "" && confirm != ""
             && |Utf16Units(newPassword)| < MinLength) ==> r == Some(WeakPassword)
    ensures (Truthy(email) && current != "" && newPassword != "" && confirm != ""
             && |Utf16Units(newPassword)| >= MinLength && newPassword != confirm) ==> r == Some(PasswordsDiffer)
    ensures r.Some? ==> r.value in {NotSignedIn, MissingFields, WeakPassword, PasswordsDiffer}
  {
    if !Truthy(email) then Some(NotSignedIn)
    else if current == "" || newPassword == "" || confirm == "" then Some(MissingFields)
    else if |Utf16Units(newPassword)| < MinLength then Some(WeakPassword)
    else if newPassword != confirm then Some(PasswordsDiffer)
    else None
  }

  /** Every password of at least six characters passes the length guard, whatever it holds. */
  lemma LongPasswordsPass(email: string, current: string, password: string)
    requires email != "" && current != "" && |password| >= MinLength
    ensures CheckInputs(Some(email), current, password, password) == None
  {
  }

  /** A new password that is both too short and unconfirmed is reported as weak: the length guard comes first. */
  lemma WeakBeforeMismatch(email: string, current: string, newPassword: string, confirm: string)
    requires email != "" && current != "" && newPassword != "" && confirm != ""
    requires |Utf16Units(newPassword)| < MinLength && newPassword != confirm
    ensures CheckInputs(Some(email), current, newPassword, confirm) == Some(WeakPassword)
  {
  }

  /** The reply to the lookup of the customer by e-mail and current password. */
  datatype LookupReply = LookupFailed(message: string) | NoRow | Row(id: string)

  /** The reply to the password update. */
  datatype UpdateReply = UpdateRejected(message: string) | Updated

  /** The backend requests the save makes. */
  datatype Call = Lookup(email: string, password: string) | Update(id: string, password: string)

  class ChangePasswordScreen {
    var currentPassword: string
    var newPassword: string
    var confirmPassword: string
    var loading: bool

    constructor()
      ensures currentPassword == "" && newPassword == "" && confirmPassword == "" && !loading
    {
      currentPassword := "";
      newPassword := "";
      confirmPassword := "";
      loading := false;
    }

    /** The current-password field's text handler. */
    method OnCurrentText(t: string)
      modifies this`currentPassword
      ensures currentPassword == t
    {
      currentPassword := t;
    }

    /** The new-password field's text handler. */
    method OnNewText(t: string)
      modifies this`newPassword
      ensures newPassword == t
    {
      newPassword := t;
    }

    /** The confirmation field's text handler. */
    method OnConfirmText(t: string)
      modifies this`confirmPassword
      ensures confirmPassword == t
    {
      confirmPassword := t;
    }

    /**
     * `handleSave` for the signed-in e-mail `email`: a failing guard raises its alert
     * and calls nothing. Otherwise the customer is looked up by e-mail and current
     * password; only a row found leads to the update of its password, and only a
     * successful update reports success and goes back. Loading is off at the end.
     */
    method HandleSave(email: Option<string>, lookup: LookupReply, update: UpdateReply)
      returns (alert: Alert, calls: seq<Call>, back: bool)
      modifies this`loading
      ensures var guard := CheckInputs(email, currentPassword, newPassword, confirmPassword);
              (guard.Some? ==> alert == guard.value && calls == [] && loading == old(loading))
              && (guard.None? ==> !loading && |calls| >= 1 && calls[0] == Lookup(email.value, currentPassword))
      ensures |calls| == 2 <==> calls != [] && lookup.Row?
      ensures |calls| == 2 ==> calls[1] == Update(lookup.id, newPassword)
      ensures calls != [] && lookup.LookupFailed? ==> alert == LookupError(lookup.message)
      ensures calls != [] && lookup.NoRow? ==> alert == IncorrectPassword
      ensures |calls| == 2 && update.UpdateRejected? ==> alert == UpdateFailed(update.message)
      ensures alert == Success <==> |calls| == 2 && update.Updated?
      ensures back <==> alert == Success
      ensures |calls| <= 2
    {
      var guard := CheckInputs(email, currentPassword, newPassword, confirmPassword);
      if guard.Some? {
        return guard.value, [], false;
      }
      loading := true;
      calls := [Lookup(email.value, currentPassword)];
      back := false;
      match lookup {
        case LookupFailed(message) =>
          alert := LookupError(message);
        case NoRow =>
          alert := IncorrectPassword;
        case Row(id) =>
          calls := calls + [Update(id, newPassword)];
          if update.UpdateRejected? {
            alert := UpdateFailed(update.message);
          } else {
            alert := Success;
            back := true;
          }
      }
      loading := false;
    }
  }
}
