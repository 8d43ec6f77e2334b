// The sign-in dialog (components/Auth.tsx). There is no server: submitting
// either form builds a new customer record from the typed fields, with
// placeholders for the empty ones, and hands it to the storefront. The
// browser submits only once every rendered `required` input is filled, so in
// practice the placeholders fill in the fields the login form does not show.
module Auth {
  import opened Types

  /** Which form the dialog shows. */
  datatype AuthMode = Login | Signup
  {
    /** The switch link under the submit button. */
    function Toggled(): (m: AuthMode)
      ensures m != this
    {
      match this
      case Login => Signup
      case Signup => Login
    }
  }

  /** Toggling twice gives back the form one started with. */
  lemma ToggleTwice(m: AuthMode)
    ensures m.Toggled().Toggled() == m
  {
  }

  const DefaultFirstName: string := "کاربر"
  const DefaultLastName: string := "گرامی"
  const DefaultNationalId: string := "0000000000"

  /** JavaScript's `text || fallback` on strings: the fallback replaces only the empty string. */
  function OrElse(text: string, fallback: string): (r: string)
    ensures text != "" ==> r == text
    ensures text == "" ==> r == fallback
  {
    if text == "" then fallback else text
  }

  /**
   * `handleAuth`'s record: the random id, the three names with their
   * placeholders, the phone as typed and an empty address book.
   */
  function NewUser(freshId: string, phone: string, firstName: string, lastName: string, nationalId: string): (u: User)
    ensures u.id == freshId && u.phone == phone && u.addresses == []
    ensures u.firstName == OrElse(firstName, DefaultFirstName)
    ensures u.lastName == OrElse(lastName, DefaultLastName)
    ensures u.nationalId == OrElse(nationalId, DefaultNationalId)
  {
    User(freshId, OrElse(firstName, DefaultFirstName), OrElse(lastName, DefaultLastName),
      OrElse(nationalId, DefaultNationalId), phone, [])
  }

  /** The new record never has an empty name or national id, and typed values survive verbatim. */
  lemma NewUserComplete(freshId: string, phone: string, firstName: string, lastName: string, nationalId: string)
    ensures var u := NewUser(freshId, phone, firstName, lastName, nationalId);
      u.firstName != "" && u.lastName != "" && |u.nationalId| >= 1 &&
      (firstName != "" ==> u.firstName == firstName) &&
      (lastName != "" ==> u.lastName == lastName) &&
      (nationalId != "" ==> u.nationalId == nationalId)
  {
  }

  /**
   * The browser's constraint validation of the form: every rendered input
   * carries `required`, so the form is submitted only with a non-empty phone
   * and, in signup mode, where the three other inputs are rendered, with
   * non-empty names and national id. In login mode those inputs are not
   * rendered and do not take part.
   */
  predicate Submittable(mode: AuthMode, phone: string, firstName: string, lastName: string, nationalId: string)
  {
    phone != "" && (mode == Signup ==> firstName != "" && lastName != "" && nationalId != "")
  }

  /** A submitted record always has a phone, and a signup keeps every typed value: the placeholders apply only on login. */
  lemma SubmittedUser(mode: AuthMode, freshId: string, phone: string, firstName: string, lastName: string, nationalId: string)
    requires Submittable(mode, phone, firstName, lastName, nationalId)
    ensures NewUser(freshId, phone, firstName, lastName, nationalId).phone != ""
    ensures mode == Signup ==>
      NewUser(freshId, phone, firstName, lastName, nationalId) == User(freshId, firstName, lastName, nationalId, phone, [])
  {
  }

  /** On login with only a phone typed, the record carries all three placeholders. */
  lemma LoginUsesPlaceholders(freshId: string, phone: string)
    requires phone != ""
    ensures Submittable(Login, phone, "", "", "")
    ensures NewUser(freshId, phone, "", "", "") ==
      User(freshId, DefaultFirstName, DefaultLastName, DefaultNationalId, phone, [])
  {
  }

  /** The dialog's own state; `open` is the storefront's flag that `onClose` clears. */
  class AuthDialog {
    var mode: AuthMode
    var phone: string
    var firstName: string
    var lastName: string
    var nationalId: string
    var open: bool

    constructor (open: bool)
      ensures mode == Login && phone == "" && firstName == "" && lastName == "" && nationalId == ""
      ensures this.open == open
    {
      mode, phone, firstName, lastName, nationalId := Login, "", "", "", "";
      this.open := open;
    }

    method ToggleMode()
      modifies this
      ensures mode == old(mode).Toggled()
      ensures phone == old(phone) && firstName == old(firstName) && lastName == old(lastName)
      ensures nationalId == old(nationalId) && open == old(open)
    {
      mode := mode.Toggled();
    }

    method SetPhone(value: string)
      modifies this
      ensures phone == value
      ensures mode == old(mode) && firstName == old(firstName) && lastName == old(lastName)
      ensures nationalId == old(nationalId) && open == old(open)
    {
      phone := value;
    }

    method SetFirstName(value: string)
      modifies this
      ensures firstName == value
      ensures mode == old(mode) && phone == old(phone) && lastName == old(lastName)
      ensures nationalId == old(nationalId) && open == old(open)
    {
      firstName := value;
    }

    method SetLastName(value: string)
      modifies this
      ensures lastName == value
      ensures mode == old(mode) && phone == old(phone) && firstName == old(firstName)
      ensures nationalId == old(nationalId) && open == old(open)
    {
      lastName := value;
    }

    method SetNationalId(value: string)
      modifies this
      ensures nationalId == value
      ensures mode == old(mode) && phone == old(phone) && firstName == old(firstName)
      ensures lastName == old(lastName) && open == old(open)
    {
      nationalId := value;
    }

    /**
     * Pressing submit: when the browser's validation lets the form through,
     * `handleAuth` sends one record to `onAuthSuccess`, whatever the mode, and
     * the dialog closes; otherwise nothing happens. The typed fields stay.
     */
    method HandleAuth(freshId: string) returns (user: Option<User>)
      requires open
      modifies this
      ensures Submittable(mode, phone, firstName, lastName, nationalId) ==>
        user == Some(NewUser(freshId, phone, firstName, lastName, nationalId)) && !open
      ensures !Submittable(mode, phone, firstName, lastName, nationalId) ==> user == None && open
      ensures mode == old(mode) && phone == old(phone) && firstName == old(firstName)
      ensures lastName == old(lastName) && nationalId == old(nationalId)
    {
      if Submittable(mode, phone, firstName, lastName, nationalId) {
        user := Some(NewUser(freshId, phone, firstName, lastName, nationalId));
        open := false;
      } else {
        user := None;
      }
    }
  }
}
