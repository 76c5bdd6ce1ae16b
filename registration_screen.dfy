/**
 * The registration form's rules and the choices its three selects offer. The form does
 * not call the backend: its submit only logs the values and schedules a redirect.
 */
module RegistrationScreen {
  import opened Options
  import opened FormRules
  import opened JsText
  import opened UserModel

  datatype RegistrationValues = RegistrationValues(
    fullName: string, mobileNumber: string, email: string, dob: string, gender: string,
    address: string, bloodGroup: string, maritalStatus: string, emergencyContact: string, consent: bool)

  const GenderOptions: seq<string> := ["male", "female", "other"]
  const BloodGroups: seq<string> := ["A+", "A-", "B+", "B-", "AB+", "AB-", "O+", "O-"]
  const MaritalStatuses: seq<string> := ["single", "married", "divorced", "widowed"]

  /** The rules of the personal fields met; `isEmail` is the library's address check, and a picked date is taken as valid. */
  predicate PersonalOk(v: RegistrationValues, isEmail: string -> bool) {
    Utf16Length(v.fullName) >= 3 && TenDigits(v.mobileNumber) && v.email != "" && isEmail(v.email) && v.dob != "" && v.gender != ""
  }

  /** The rules of the remaining fields met. */
  predicate OtherOk(v: RegistrationValues) {
    Utf16Length(v.address) >= 10 && v.bloodGroup != "" && v.maritalStatus != "" && TenDigits(v.emergencyContact) && v.consent
  }

  predicate Acceptable(v: RegistrationValues, isEmail: string -> bool) {
    PersonalOk(v, isEmail) && OtherOk(v)
  }

  /** `consent: boolean().oneOf([true], ...)`: an unticked box fails. */
  function ConsentRule(consent: bool): (r: Option<string>)
    ensures r.None? <==> consent
  {
    if consent then None else Some("You must accept the privacy policy")
  }

  function PersonalErrors(v: RegistrationValues, isEmail: string -> bool): (e: map<string, string>)
    ensures "fullName" in e <==> Utf16Length(v.fullName) < 3
    ensures "mobileNumber" in e <==> !TenDigits(v.mobileNumber)
    ensures "email" in e <==> v.email == "" || !isEmail(v.email)
    ensures "dob" in e <==> v.dob == ""
    ensures "gender" in e <==> v.gender == ""
    ensures e.Keys <= {"fullName", "mobileNumber", "email", "dob", "gender"}
  {
    var e1 := Put(map[], "fullName", MinLength(v.fullName, 3, "Full name is required", "Name must be at least 3 characters"));
    var e2 := Put(e1, "mobileNumber", DigitsRule(v.mobileNumber, "Mobile number is required", "Mobile number must be 10 digits"));
    var e3 := Put(e2, "email", EmailRule(v.email, isEmail, "Email is required", "Invalid email address"));
    var e4 := Put(e3, "dob", Required(v.dob, "Date of birth is required"));
    Put(e4, "gender", Required(v.gender, "Gender is required"))
  }

  function OtherErrors(v: RegistrationValues): (e: map<string, string>)
    ensures "address" in e <==> Utf16Length(v.address) < 10
    ensures "bloodGroup" in e <==> v.bloodGroup == ""
    ensures "maritalStatus" in e <==> v.maritalStatus == ""
    ensures "emergencyContact" in e <==> !TenDigits(v.emergencyContact)
    ensures "consent" in e <==> !v.consent
    ensures e.Keys <= {"address", "bloodGroup", "maritalStatus", "emergencyContact", "consent"}
  {
    var e1 := Put(map[], "address", MinLength(v.address, 10, "Address is required", "Address must be at least 10 characters"));
    var e2 := Put(e1, "bloodGroup", Required(v.bloodGroup, "Blood group is required"));
    var e3 := Put(e2, "maritalStatus", Required(v.maritalStatus, "Marital status is required"));
    var e4 := Put(e3, "emergencyContact", DigitsRule(v.emergencyContact, "Emergency contact is required", "Emergency contact must be 10 digits"));
    Put(e4, "consent", ConsentRule(v.consent))
  }

  /** The personal fields raise no error exactly when their rules are all met. */
  lemma PersonalErrorsEmpty(v: RegistrationValues, isEmail: string -> bool)
    ensures PersonalErrors(v, isEmail) == map[] <==> PersonalOk(v, isEmail)
  {
    var e := PersonalErrors(v, isEmail);
    if PersonalOk(v, isEmail) {
      assert e.Keys == {};
    }
  }

  /** The remaining fields raise no error exactly when their rules are all met. */
  lemma OtherErrorsEmpty(v: RegistrationValues)
    ensures OtherErrors(v) == map[] <==> OtherOk(v)
  {
    var e := OtherErrors(v);
    if OtherOk(v) {
      assert e.Keys == {};
    }
  }

  /** The messages of the personal fields, as the schema words them. */
  lemma PersonalMessages(v: RegistrationValues, isEmail: string -> bool)
    ensures var e := PersonalErrors(v, isEmail);
      && (v.fullName == "" ==> e["fullName"] == "Full name is required")
      && (v.fullName != "" && Utf16Length(v.fullName) < 3 ==> e["fullName"] == "Name must be at least 3 characters")
      && (v.mobileNumber == "" ==> e["mobileNumber"] == "Mobile number is required")
      && (v.mobileNumber != "" && !TenDigits(v.mobileNumber) ==> e["mobileNumber"] == "Mobile number must be 10 digits")
      && (v.email == "" ==> e["email"] == "Email is required")
      && (v.email != "" && !isEmail(v.email) ==> e["email"] == "Invalid email address")
      && (v.dob == "" ==> e["dob"] == "Date of birth is required")
      && (v.gender == "" ==> e["gender"] == "Gender is required")
  {
  }

  /** The messages of the remaining fields, as the schema words them. */
  lemma OtherMessages(v: RegistrationValues)
    ensures var e := OtherErrors(v);
      && (v.address == "" ==> e["address"] == "Address is required")
      && (v.address != "" && Utf16Length(v.address) < 10 ==> e["address"] == "Address must be at least 10 characters")
      && (v.bloodGroup == "" ==> e["bloodGroup"] == "Blood group is required")
      && (v.maritalStatus == "" ==> e["maritalStatus"] == "Marital status is required")
      && (v.emergencyContact == "" ==> e["emergencyContact"] == "Emergency contact is required")
      && (v.emergencyContact != "" && !TenDigits(v.emergencyContact) ==>
            e["emergencyContact"] == "Emergency contact must be 10 digits")
      && (!v.consent ==> e["consent"] == "You must accept the privacy policy")
  {
  }

  /** The whole schema: the form submits exactly when no field has an error. */
  function Errors(v: RegistrationValues, isEmail: string -> bool): (e: map<string, string>)
    ensures e == map[] <==> Acceptable(v, isEmail)
    ensures forall k :: k in e <==> k in PersonalErrors(v, isEmail) || k in OtherErrors(v)
  {
    var personal := PersonalErrors(v, isEmail);
    var other := OtherErrors(v);
    PersonalErrorsEmpty(v, isEmail);
    OtherErrorsEmpty(v);
    var e := personal + other;
    assert e.Keys == personal.Keys + other.Keys;
    e
  }

  /** Every option of the three selects passes its `required` rule, and no option repeats. */
  lemma OptionsSelectable()
    ensures forall i :: 0 <= i < |GenderOptions| ==> Required(GenderOptions[i], "").None?
    ensures forall i :: 0 <= i < |BloodGroups| ==> Required(BloodGroups[i], "").None?
    ensures forall i :: 0 <= i < |MaritalStatuses| ==> Required(MaritalStatuses[i], "").None?
    ensures forall i, j :: 0 <= i < j < |BloodGroups| ==> BloodGroups[i] != BloodGroups[j]
    ensures forall i, j :: 0 <= i < j < |GenderOptions| ==> GenderOptions[i] != GenderOptions[j]
    ensures forall i, j :: 0 <= i < j < |MaritalStatuses| ==> MaritalStatuses[i] != MaritalStatuses[j]
  {
  }

  /**
   * The form's gender values are lower case while the user schema's enum is capitalised:
   * none of them would pass the schema's enum check.
   */
  lemma FormGendersOutsideSchema(i: int)
    requires 0 <= i < |GenderOptions|
    ensures ParseGender(GenderOptions[i]).None?
  {
  }

  /** A ten-character mobile number with a letter in it is refused with the pattern message. */
  lemma MobileNeedsDigits()
    ensures !TenDigits("12345abcde") && TenDigits("9876543210")
  {
    assert !IsDigit("12345abcde"[5]);
  }
}
