/**
 * The user document of the authentication service: required, unique and enumerated paths
 * and their defaults.
 */
module UserModel {
  import opened Options
  import opened Values

  datatype Role = PatientRole | ProviderRole
  datatype Gender = Male | Female | Other

  function RoleName(r: Role): string {
    match r
    case PatientRole => "patient"
    case ProviderRole => "provider"
  }

  function GenderName(g: Gender): string {
    match g
    case Male => "Male"
    case Female => "Female"
    case Other => "Other"
  }

  /** The `enum` validator of `role`. */
  function ParseRole(text: string): (r: Option<Role>)
    ensures r.Some? <==> text == "patient" || text == "provider"
    ensures r.Some? ==> RoleName(r.value) == text
  {
    if text == "patient" then Some(PatientRole)
    else if text == "provider" then Some(ProviderRole)
    else None
  }

  /** The `enum` validator of `gender`; the names are capitalised. */
  function ParseGender(text: string): (r: Option<Gender>)
    ensures r.Some? <==> text == "Male" || text == "Female" || text == "Other"
    ensures r.Some? ==> GenderName(r.value) == text
  {
    if text == "Male" then Some(Male)
    else if text == "Female" then Some(Female)
    else if text == "Other" then Some(Other)
    else None
  }

  lemma {:induction false} UserEnumsRoundTrip(r: Role, g: Gender)
    ensures ParseRole(RoleName(r)) == Some(r)
    ensures ParseGender(GenderName(g)) == Some(g)
  {
    match r { case PatientRole => case ProviderRole => }
    match g { case Male => case Female => case Other => }
  }

  /** A stored user; `password` holds whatever the service stored there (a hash). */
  datatype User = User(
    id: ObjectId, fullName: string, mobileNumber: Option<string>, email: string,
    dob: Option<Date>, gender: Option<Gender>, address: Option<string>,
    bloodGroup: Option<string>, maritalStatus: Option<string>, emergencyContact: Option<string>,
    consent: bool, password: string, role: Role, createdAt: Date, updatedAt: Date)

  /** The request body of a registration; any field may be left out. */
  datatype UserInput = UserInput(
    fullName: Option<string>, mobileNumber: Option<string>, email: Option<string>, dob: Option<Date>,
    gender: Option<string>, address: Option<string>, bloodGroup: Option<string>,
    maritalStatus: Option<string>, emergencyContact: Option<string>, consent: Option<bool>,
    password: Option<string>, role: Option<string>)

  function UserErrors(input: UserInput, password: string): set<string> {
    (if input.fullName.Some? && input.fullName.value != "" then {} else {"fullName"})
    + (if input.email.Some? && input.email.value != "" then {} else {"email"})
    + (if input.gender.None? || ParseGender(input.gender.value).Some? then {} else {"gender"})
    + (if password != "" then {} else {"password"})
    + (if input.role.None? || ParseRole(input.role.value).Some? then {} else {"role"})
  }

  /**
   * `User.create({...input, password})` at time `now`: `fullName`, `email` and `password`
   * are required, `gender` and `role` must be among their names, `consent` defaults to
   * false and `role` to "patient".
   */
  function NewUser(id: ObjectId, input: UserInput, password: string, now: Date): (r: Result<User, set<string>>)
    ensures r.Success? <==>
      && input.fullName.Some? && input.fullName.value != "" && input.email.Some? && input.email.value != ""
      && password != ""
      && (input.gender.None? || input.gender.value in {"Male", "Female", "Other"})
      && (input.role.None? || input.role.value in {"patient", "provider"})
    ensures r.Failure? ==> r.error != {}
    ensures r.Success? ==> (r.value.id == id && r.value.email == input.email.value
      && r.value.fullName == input.fullName.value && r.value.password == password)
    ensures r.Success? ==> (r.value.mobileNumber == input.mobileNumber && r.value.dob == input.dob
      && r.value.address == input.address && r.value.bloodGroup == input.bloodGroup
      && r.value.maritalStatus == input.maritalStatus && r.value.emergencyContact == input.emergencyContact)
    ensures r.Success? ==> r.value.createdAt == now && r.value.updatedAt == now
    ensures r.Success? ==> r.value.consent == (input.consent.Some? && input.consent.value)
    ensures r.Success? && input.role.None? ==> r.value.role == PatientRole
    ensures r.Success? && input.role.Some? ==> RoleName(r.value.role) == input.role.value
    ensures r.Success? && input.gender.Some? ==> r.value.gender.Some? && GenderName(r.value.gender.value) == input.gender.value
    ensures r.Success? && input.gender.None? ==> r.value.gender.None?
  {
    var errors := UserErrors(input, password);
    if errors != {} then Failure(errors)
    else
      Success(User(
        id, input.fullName.value, input.mobileNumber, input.email.value, input.dob,
        if input.gender.None? then None else ParseGender(input.gender.value),
        input.address, input.bloodGroup, input.maritalStatus, input.emergencyContact,
        input.consent.Some? && input.consent.value, password,
        if input.role.None? then PatientRole else ParseRole(input.role.value).value,
        now, now))
  }
}
