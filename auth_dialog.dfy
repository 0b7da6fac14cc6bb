/**
 * The sign-in / registration dialog: a record of eleven text fields edited
 * one field at a time, a login/register mode flag driven by the tabs, and the
 * submit handler, whose two checks either reject with an error message or
 * schedule the simulated success.
 */
module AuthDialog {

  import opened UserRoles
  import BloodTypeSelector

  /** The names of the form's fields. */
  datatype Field =
    | Email | Password | ConfirmPassword | FullName | Phone | BloodTypeField
    | Age | Weight | Address | HospitalName | LicenseNumber

  datatype FormData = FormData(
    email: string,
    password: string,
    confirmPassword: string,
    fullName: string,
    phone: string,
    bloodType: string,
    age: string,
    weight: string,
    address: string,
    hospitalName: string,
    licenseNumber: string)
  {
    /** The current text of one field. */
    function Get(f: Field): string
    {
      match f
      case Email => email
      case Password => password
      case ConfirmPassword => confirmPassword
      case FullName => fullName
      case Phone => phone
      case BloodTypeField => bloodType
      case Age => age
      case Weight => weight
      case Address => address
      case HospitalName => hospitalName
      case LicenseNumber => licenseNumber
    }

    /** The record with one field replaced, every other field kept. */
    function With(f: Field, value: string): (r: FormData)
      ensures r.Get(f) == value
      ensures forall g :: g != f ==> r.Get(g) == Get(g)
    {
      match f
      case Email => this.(email := value)
      case Password => this.(password := value)
      case ConfirmPassword => this.(confirmPassword := value)
      case FullName => this.(fullName := value)
      case Phone => this.(phone := value)
      case BloodTypeField => this.(bloodType := value)
      case Age => this.(age := value)
      case Weight => this.(weight := value)
      case Address => this.(address := value)
      case HospitalName => this.(hospitalName := value)
      case LicenseNumber => this.(licenseNumber := value)
    }
  }

  /** A form is determined by the texts of its eleven fields. */
  lemma FormExtensional(a: FormData, b: FormData)
    requires forall f :: a.Get(f) == b.Get(f)
    ensures a == b
  {
    assert a.Get(Email) == b.Get(Email) && a.Get(Password) == b.Get(Password);
    assert a.Get(ConfirmPassword) == b.Get(ConfirmPassword) && a.Get(FullName) == b.Get(FullName);
    assert a.Get(Phone) == b.Get(Phone) && a.Get(BloodTypeField) == b.Get(BloodTypeField);
    assert a.Get(Age) == b.Get(Age) && a.Get(Weight) == b.Get(Weight);
    assert a.Get(Address) == b.Get(Address) && a.Get(HospitalName) == b.Get(HospitalName);
    assert a.Get(LicenseNumber) == b.Get(LicenseNumber);
  }

  /** Writing a field's own text back changes nothing; a second write to a field overrides the first. */
  lemma WithLaws(d: FormData, f: Field, v: string, w: string)
    ensures d.With(f, d.Get(f)) == d
    ensures d.With(f, v).With(f, w) == d.With(f, w)
  {
    FormExtensional(d.With(f, d.Get(f)), d);
    FormExtensional(d.With(f, v).With(f, w), d.With(f, w));
  }

  /** Writes to two different fields commute. */
  lemma WithCommutes(d: FormData, f: Field, g: Field, v: string, w: string)
    requires f != g
    ensures d.With(f, v).With(g, w) == d.With(g, w).With(f, v)
  {
    FormExtensional(d.With(f, v).With(g, w), d.With(g, w).With(f, v));
  }

  const InitialForm := FormData("", "", "", "", "", "O+", "", "", "", "", "")

  /** The form starts with blood type O+ and every other field empty. */
  lemma InitialFormFacts()
    ensures InitialForm.Get(BloodTypeField) == BloodTypeSelector.Name(BloodTypeSelector.BloodType(BloodTypeSelector.O, BloodTypeSelector.Pos))
    ensures forall f :: f != BloodTypeField ==> InitialForm.Get(f) == ""
  {
    BloodTypeSelector.NameOfType(BloodTypeSelector.BloodType(BloodTypeSelector.O, BloodTypeSelector.Pos));
  }

  // ----- tabs -----

  /** The selected tab for a mode. */
  function TabValue(isLogin: bool): (v: string)
    ensures v in {"login", "register"}
  {
    if isLogin then "login" else "register"
  }

  /** The mode a tab change selects: login for "login", register for anything else. */
  function ModeOfTab(value: string): (isLogin: bool)
    ensures isLogin <==> value == "login"
  {
    value == "login"
  }

  lemma TabRoundTrip(isLogin: bool)
    ensures ModeOfTab(TabValue(isLogin)) == isLogin
  {
  }

  // ----- submit -----

  /** A notification: its title, its text, and whether it is shown as an error. */
  datatype Toast = Toast(title: string, description: string, destructive: bool)

  /**
   * The result of one submit: rejected with an error notification, or the
   * simulated sign-in scheduled, which shows its notification and then calls
   * the dialog's success callback once.
   */
  datatype SubmitOutcome = Rejected(error: Toast) | SuccessScheduled(notice: Toast)

  const RequiredFieldsError := Toast("Error", "Please fill in all required fields", true)
  const PasswordMismatchError := Toast("Error", "Passwords do not match", true)
  const LoggedInNotice := Toast("Success!", "Successfully logged in!", false)
  const AccountCreatedNotice := Toast("Success!", "Account created successfully!", false)

  /**
   * The submit handler. The required-fields check comes first; the password
   * confirmation is checked only in register mode.
   */
  function HandleSubmit(isLogin: bool, form: FormData): (o: SubmitOutcome)
    ensures o.SuccessScheduled? <==>
      form.email != "" && form.password != "" && (isLogin || form.password == form.confirmPassword)
    ensures form.email == "" || form.password == "" ==> o == Rejected(RequiredFieldsError)
    ensures form.email != "" && form.password != "" && !isLogin && form.password != form.confirmPassword
      ==> o == Rejected(PasswordMismatchError)
    ensures o.SuccessScheduled? ==> o.notice == if isLogin then LoggedInNotice else AccountCreatedNotice
  {
    if form.email == "" || form.password == "" then Rejected(RequiredFieldsError)
    else if !isLogin && form.password != form.confirmPassword then Rejected(PasswordMismatchError)
    else SuccessScheduled(if isLogin then LoggedInNotice else AccountCreatedNotice)
  }

  /**
   * Submit looks only at the email, the password and, in register mode, the
   * confirmation: forms that agree on those get the same outcome.
   */
  lemma SubmitReadsOnlyCredentials(isLogin: bool, a: FormData, b: FormData)
    requires a.email == b.email && a.password == b.password
    requires !isLogin ==> a.confirmPassword == b.confirmPassword
    ensures HandleSubmit(isLogin, a) == HandleSubmit(isLogin, b)
  {
  }

  /** An empty password is reported as a missing field, even when the confirmation differs. */
  lemma RequiredCheckComesFirst(form: FormData)
    requires form.password == "" && form.confirmPassword != ""
    ensures HandleSubmit(false, form) == Rejected(RequiredFieldsError)
  {
  }

  // ----- the portal heading -----

  datatype UserTypeInfo = UserTypeInfo(title: string, description: string, color: string)

  /** The dialog's heading for the role it was opened for: a portal title, a tagline and a colour. */
  function GetUserTypeInfo(role: Role): (info: UserTypeInfo)
    ensures |info.title| > 7 && info.title[|info.title| - 7..] == " Portal"
    ensures info.color in {"text-red-500", "text-blue-500", "text-green-500"}
    ensures info.description != ""
  {
    match role
    case Donor => UserTypeInfo("Donor Portal", "Join our community of life-savers", "text-red-500")
    case Patient => UserTypeInfo("Patient Portal", "Find compatible blood donors", "text-blue-500")
    case Hospital => UserTypeInfo("Hospital Portal", "Manage blood inventory and requests", "text-green-500")
  }

  /** Each role gets its own heading. */
  lemma UserTypeInfoDistinct(r: Role, s: Role)
    ensures GetUserTypeInfo(r).title == GetUserTypeInfo(s).title <==> r == s
  {
  }

  // ----- the dialog's state -----

  class Dialog {
    var isLogin: bool
    var formData: FormData

    constructor ()
      ensures isLogin && formData == InitialForm
    {
      isLogin := true;
      formData := InitialForm;
    }

    /** Sets exactly one field; the mode and every other field keep their values. */
    method HandleInputChange(field: Field, value: string)
      modifies this
      ensures formData == old(formData).With(field, value)
      ensures formData.Get(field) == value
      ensures forall g :: g != field ==> formData.Get(g) == old(formData).Get(g)
      ensures isLogin == old(isLogin)
    {
      formData := formData.With(field, value);
    }

    /** A tab change: "login" selects login mode, any other tab register mode; the form is kept. */
    method HandleTabChange(value: string)
      modifies this
      ensures isLogin == ModeOfTab(value)
      ensures formData == old(formData)
    {
      isLogin := value == "login";
    }

    /** Submits the current form; the dialog's state does not change. */
    method Submit() returns (o: SubmitOutcome)
      ensures o == HandleSubmit(isLogin, formData)
    {
      o := HandleSubmit(isLogin, formData);
    }
  }
}
