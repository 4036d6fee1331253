/**
 * The sign-in / sign-up page: the regular user's form check, the four-step
 * police sign-up with its per-step checks and bounded navigation, the pick
 * of a police station from the location suggestions, and the reset on
 * switching between a regular and a police account.
 *
 * The network calls (suggestions, sign-up, sign-in) and local storage are
 * not modelled. Error messages are constructors of `Message`; a field
 * without a message has no key in the error map.
 */
module AuthForm {
  import opened Wrappers
  import opened Text
  import opened FieldMessages
  import opened LocationSearch

  datatype UserType = Regular | Police

  /** An ID-card image: none, an uploaded image's URL, or a picked local file. */
  datatype Attachment = NoFile | Url(url: string) | LocalFile

  /** JavaScript truthiness of `idCardFront`: a file, or a non-empty URL. */
  predicate Attached(a: Attachment)
  {
    a.LocalFile? || (a.Url? && a.url != "")
  }

  /** The `formData` record. */
  datatype SignupForm = SignupForm(
    name: string, email: string, phone: string, role: UserType, dateOfBirth: string,
    badgeId: string, designation: string, policeStation: string, department: string,
    lat: real, lng: real, address: string, district: string, state: string,
    idCardFront: Attachment, idCardBack: Attachment, verified: bool)

  /** The form after a reset, for the given account type. */
  function BlankForm(role: UserType): SignupForm
  {
    SignupForm("", "", "", role, "", "", "", "", "", 0.0, 0.0, "", "", "", NoFile, NoFile, false)
  }

  /** The keys of the `errors` record. */
  datatype Field =
    | Name | Email | Phone | DateOfBirth | BadgeId | Designation | PoliceStation | Department
    | District | State | IdCardFront | IdCardBack

  /** The messages the checks can show. */
  datatype Message =
    | NameRequired | FullNameRequired | EmailRequired | EmailInvalid | PhoneRequired | PhoneInvalid
    | DateOfBirthRequired | BadgeRequired | DesignationRequired | StationRequired | DepartmentRequired
    | IdCardFrontRequired

  /** The text shown for each message. */
  function MessageText(m: Message): string
  {
    match m
    case NameRequired => "Name is required"
    case FullNameRequired => "Full name is required"
    case EmailRequired => "Email is required"
    case EmailInvalid => "Please enter a valid email"
    case PhoneRequired => "Phone number is required"
    case PhoneInvalid => "Please enter a valid 10-digit phone number"
    case DateOfBirthRequired => "Date of birth is required"
    case BadgeRequired => "Badge/ID number is required"
    case DesignationRequired => "Designation/Rank is required"
    case StationRequired => "Police station name is required"
    case DepartmentRequired => "Department/Branch is required"
    case IdCardFrontRequired => "Police ID card (front) is required"
  }

  type Errors = map<Field, Message>

  /** The banner shown when a police step fails. */
  const IncompleteNotice := "Please fill in all required fields before proceeding."

  const FirstPoliceStep := 1
  const LastPoliceStep := 4

  /** `!value.trim()`. */
  predicate Blank(value: string) { Trim(value) == "" }

  /** The email rule shared by both forms: required, then well formed. */
  function EmailRule(email: string): Option<Message>
  {
    if Blank(email) then Some(EmailRequired)
    else if !ValidEmail(email) then Some(EmailInvalid)
    else None
  }

  /** A well-formed address is never blank: it starts with a character that is not whitespace. */
  lemma ValidEmailNotBlank(email: string)
    requires ValidEmail(email)
    ensures !Blank(email)
  {
    var i :| 0 < i < |email| && email[i] == '@' && NoSpaceOrAt(email[..i]) && EmailDomain(email[i + 1..]);
    assert email[..i][0] == email[0];
    TrimEmptyIff(email);
  }

  /** Ten digits are never blank. */
  lemma DigitsNotBlank(value: string)
    requires TenDigits(value)
    ensures !Blank(value)
  {
    TrimEmptyIff(value);
    assert IsDigit(value[0]) && !IsSpace(value[0]);
  }

  /** What `validateRegularForm` demands: a valid email always; on sign-up a name, and a phone only if one is typed. */
  predicate RegularValid(isLogin: bool, form: SignupForm)
  {
    (isLogin || !Blank(form.name)) && ValidEmail(form.email) &&
    (isLogin || form.phone == "" || TenDigits(form.phone))
  }

  /** The messages after `validateRegularForm`, written over `errors`. */
  function RegularErrors(errors: Errors, isLogin: bool, form: SignupForm): Errors
  {
    Put(Put(Put(errors,
      Name, if !isLogin && Blank(form.name) then Some(NameRequired) else None),
      Email, EmailRule(form.email)),
      Phone, if !isLogin && form.phone != "" && !TenDigits(form.phone) then Some(PhoneInvalid) else None)
  }

  /** Step 1: full name, a valid email, a ten-digit phone and a date of birth. */
  predicate PersonalValid(form: SignupForm)
  {
    !Blank(form.name) && ValidEmail(form.email) && TenDigits(form.phone) && form.dateOfBirth != ""
  }

  /** Step 2: badge, designation, station and department; district and state are not demanded. */
  predicate ServiceValid(form: SignupForm)
  {
    !Blank(form.badgeId) && !Blank(form.designation) && !Blank(form.policeStation) && !Blank(form.department)
  }

  /** What step `step` of the police sign-up demands; step 3 the front of the ID card, step 4 and any other step nothing. */
  predicate PoliceStepValid(form: SignupForm, step: int)
  {
    if step == 1 then PersonalValid(form)
    else if step == 2 then ServiceValid(form)
    else if step == 3 then Attached(form.idCardFront)
    else true
  }

  function RequiredText(value: string, m: Message): Option<Message>
  {
    if Blank(value) then Some(m) else None
  }

  function PhoneRule(phone: string): Option<Message>
  {
    if Blank(phone) then Some(PhoneRequired)
    else if !TenDigits(phone) then Some(PhoneInvalid)
    else None
  }

  function PersonalErrors(errors: Errors, form: SignupForm): Errors
  {
    Put(Put(Put(Put(errors,
      Name, RequiredText(form.name, FullNameRequired)),
      Email, EmailRule(form.email)),
      Phone, PhoneRule(form.phone)),
      DateOfBirth, if form.dateOfBirth == "" then Some(DateOfBirthRequired) else None)
  }

  function ServiceErrors(errors: Errors, form: SignupForm): Errors
  {
    Put(Put(Put(Put(errors,
      BadgeId, RequiredText(form.badgeId, BadgeRequired)),
      Designation, RequiredText(form.designation, DesignationRequired)),
      PoliceStation, RequiredText(form.policeStation, StationRequired)),
      Department, RequiredText(form.department, DepartmentRequired))
  }

  /** The messages after `validatePoliceStep(step)`, written over `errors`. */
  function PoliceErrors(errors: Errors, form: SignupForm, step: int): Errors
  {
    if step == 1 then PersonalErrors(errors, form)
    else if step == 2 then ServiceErrors(errors, form)
    else if step == 3 then
      Put(errors, IdCardFront, if !Attached(form.idCardFront) then Some(IdCardFrontRequired) else None)
    else errors
  }

  /** Step 2's side effect: a blank district or state is stored as "Not specified". */
  function WithLocationDefaults(form: SignupForm): SignupForm
  {
    form.(district := if Blank(form.district) then NotSpecified else form.district,
          state := if Blank(form.state) then NotSpecified else form.state)
  }

  /** The regular form is accepted exactly when it writes no message; at sign-in only the email counts. */
  lemma RegularErrorsEmptyIff(isLogin: bool, form: SignupForm)
    ensures RegularErrors(map[], isLogin, form) == map[] <==> RegularValid(isLogin, form)
    ensures isLogin ==> (RegularValid(isLogin, form) <==> ValidEmail(form.email))
  {
    if ValidEmail(form.email) { ValidEmailNotBlank(form.email); }
    var r1 := if !isLogin && Blank(form.name) then Some(NameRequired) else None;
    var m1 := Put(map[], Name, r1);
    var m2 := Put(m1, Email, EmailRule(form.email));
    PutEmpty(map[], Name, r1);
    PutEmpty(m1, Email, EmailRule(form.email));
    PutEmpty(m2, Phone, if !isLogin && form.phone != "" && !TenDigits(form.phone) then Some(PhoneInvalid) else None);
  }

  /** A police step is accepted exactly when it writes no message. */
  lemma PoliceErrorsEmptyIff(form: SignupForm, step: int)
    ensures PoliceErrors(map[], form, step) == map[] <==> PoliceStepValid(form, step)
  {
    if step == 1 {
      if ValidEmail(form.email) { ValidEmailNotBlank(form.email); }
      if TenDigits(form.phone) { DigitsNotBlank(form.phone); }
      var m1 := Put(map[], Name, RequiredText(form.name, FullNameRequired));
      var m2 := Put(m1, Email, EmailRule(form.email));
      var m3 := Put(m2, Phone, PhoneRule(form.phone));
      PutEmpty(map[], Name, RequiredText(form.name, FullNameRequired));
      PutEmpty(m1, Email, EmailRule(form.email));
      PutEmpty(m2, Phone, PhoneRule(form.phone));
      PutEmpty(m3, DateOfBirth, if form.dateOfBirth == "" then Some(DateOfBirthRequired) else None);
    } else if step == 2 {
      var m1 := Put(map[], BadgeId, RequiredText(form.badgeId, BadgeRequired));
      var m2 := Put(m1, Designation, RequiredText(form.designation, DesignationRequired));
      var m3 := Put(m2, PoliceStation, RequiredText(form.policeStation, StationRequired));
      PutEmpty(map[], BadgeId, RequiredText(form.badgeId, BadgeRequired));
      PutEmpty(m1, Designation, RequiredText(form.designation, DesignationRequired));
      PutEmpty(m2, PoliceStation, RequiredText(form.policeStation, StationRequired));
      PutEmpty(m3, Department, RequiredText(form.department, DepartmentRequired));
    } else if step == 3 {
      PutEmpty(map[], IdCardFront, if !Attached(form.idCardFront) then Some(IdCardFrontRequired) else None);
    }
  }

  /**
   * Step 2 never fails on a missing district or state: its verdict ignores
   * both, and afterwards both are non-blank.
   */
  lemma LocationNeverBlocksStep2(form: SignupForm, district: string, state: string)
    ensures PoliceStepValid(form.(district := district, state := state), 2) == PoliceStepValid(form, 2)
    ensures !Blank(WithLocationDefaults(form).district) && !Blank(WithLocationDefaults(form).state)
  {
    TrimEmptyIff(NotSpecified);
    assert !IsSpace(NotSpecified[0]);
  }

  /** Step 3 asks for the front of the ID card and nothing else; step 4 always passes. */
  lemma LaterStepsDemands(form: SignupForm)
    ensures PoliceStepValid(form, 3) <==> Attached(form.idCardFront)
    ensures PoliceStepValid(form.(idCardBack := NoFile), 3) == PoliceStepValid(form, 3)
    ensures PoliceStepValid(form, 4)
  {
  }

  /** Removing keys that are not there changes nothing. */
  lemma RemoveAbsentKeys(errors: Errors, keys: set<Field>)
    requires forall k :: k in keys ==> k !in errors
    ensures errors - keys == errors
  {
  }

  /** The page's state. */
  class AuthPage {
    var isLogin: bool
    var userType: UserType
    var policeStep: int
    var formError: string
    var form: SignupForm
    var errors: Errors
    var selectedLocation: Option<Suggestion>
    var recentSearches: seq<Suggestion>

    ghost predicate Valid()
      reads this
    {
      FirstPoliceStep <= policeStep <= LastPoliceStep
    }

    constructor ()
      ensures Valid() && isLogin && userType == Regular && policeStep == FirstPoliceStep
      ensures formError == "" && form == BlankForm(Regular) && errors == map[]
      ensures selectedLocation == None && recentSearches == []
    {
      isLogin := true;
      userType := Regular;
      policeStep := FirstPoliceStep;
      formError := "";
      form := BlankForm(Regular);
      errors := map[];
      selectedLocation := None;
      recentSearches := [];
    }

    /** `validateRegularForm`. */
    method ValidateRegularForm() returns (ok: bool)
      modifies this`errors
      ensures ok <==> RegularValid(isLogin, form)
      ensures errors == RegularErrors(old(errors), isLogin, form)
    {
      ok := true;
      var newErrors := errors;
      if !isLogin && Blank(form.name) {
        newErrors := newErrors[Name := NameRequired];
        ok := false;
      }
      var emailOk;
      newErrors, emailOk := CheckEmail(form.email, newErrors);
      ok := ok && emailOk;
      if !isLogin && form.phone != "" {
        if !TenDigits(form.phone) {
          newErrors := newErrors[Phone := PhoneInvalid];
          ok := false;
        }
      }
      errors := newErrors;
    }

    /**
     * `validatePoliceStep(step)`: clear the banner, run the step's checks,
     * default a blank district or state on step 2, and show the banner iff
     * a check failed.
     */
    method ValidatePoliceStep(step: int) returns (ok: bool)
      modifies this`errors, this`formError, this`form
      ensures ok <==> PoliceStepValid(old(form), step)
      ensures errors == PoliceErrors(old(errors), old(form), step)
      ensures form == if step == 2 then WithLocationDefaults(old(form)) else old(form)
      ensures formError == if ok then "" else IncompleteNotice
    {
      ok := true;
      var newErrors := errors;
      formError := "";
      if step == 1 {
        newErrors, ok := CheckPersonalDetails(form, newErrors);
      } else if step == 2 {
        newErrors, ok := CheckServiceDetails(form, newErrors);
        if Blank(form.district) {
          form := form.(district := NotSpecified);
        }
        if Blank(form.state) {
          form := form.(state := NotSpecified);
        }
      } else if step == 3 {
        if !Attached(form.idCardFront) {
          newErrors := newErrors[IdCardFront := IdCardFrontRequired];
          ok := false;
        }
      }
      errors := newErrors;
      if !ok {
        formError := IncompleteNotice;
      }
    }

    /** `handleNextStep` on the police sign-up: advance only past a valid step, never beyond step 4. */
    method HandleNextStep() returns (ok: bool)
      requires Valid()
      modifies this`errors, this`formError, this`form, this`policeStep
      ensures Valid()
      ensures ok <==> PoliceStepValid(old(form), old(policeStep))
      ensures policeStep == if ok && old(policeStep) < LastPoliceStep then old(policeStep) + 1 else old(policeStep)
      ensures errors == PoliceErrors(old(errors), old(form), old(policeStep))
      ensures form == if old(policeStep) == 2 then WithLocationDefaults(old(form)) else old(form)
      ensures formError == if ok then "" else IncompleteNotice
    {
      ok := ValidatePoliceStep(policeStep);
      if ok {
        policeStep := if policeStep < LastPoliceStep then policeStep + 1 else policeStep;
      }
    }

    /** `handlePrevStep`: go back one step, never before step 1. */
    method HandlePrevStep()
      requires Valid()
      modifies this`policeStep
      ensures Valid()
      ensures policeStep == if old(policeStep) > FirstPoliceStep then old(policeStep) - 1 else old(policeStep)
    {
      policeStep := if policeStep > FirstPoliceStep then policeStep - 1 else policeStep;
    }

    /**
     * `handleSuggestionClick`: take the station's name and position, fill
     * district and state with their fallbacks, remember the pick, and clear
     * the station, district and state messages.
     */
    method HandleSuggestionClick(suggestion: Suggestion)
      modifies this`form, this`selectedLocation, this`recentSearches, this`errors
      ensures form == old(form).(policeStation := suggestion.name, lat := suggestion.lat, lng := suggestion.lng,
                                 district := PickedDistrict(suggestion), state := PickedState(suggestion))
      ensures form.district != "" && form.state != ""
      ensures selectedLocation == Some(suggestion)
      ensures recentSearches == SaveToRecentSearches(old(recentSearches), suggestion)
      ensures errors == old(errors) - {PoliceStation, District, State}
    {
      var district := PickedDistrict(suggestion);
      var state := PickedState(suggestion);
      var recent := SaveToRecentSearches(recentSearches, suggestion);
      form := form.(policeStation := suggestion.name, lat := suggestion.lat, lng := suggestion.lng,
                    district := district, state := state);
      selectedLocation := Some(suggestion);
      recentSearches := recent;
      if PoliceStation in errors || District in errors || State in errors {
        errors := errors - {PoliceStation, District, State};
      } else {
        RemoveAbsentKeys(errors, {PoliceStation, District, State});
      }
    }

    /** `toggleUserType`: switch the account type and start over from a blank form at step 1. */
    method ToggleUserType(t: UserType)
      modifies this`userType, this`policeStep, this`formError, this`errors, this`form, this`selectedLocation
      ensures Valid()
      ensures userType == t && policeStep == FirstPoliceStep && formError == ""
      ensures errors == map[] && form == BlankForm(t) && form.role == t && selectedLocation == None
    {
      userType := t;
      policeStep := FirstPoliceStep;
      formError := "";
      errors := map[];
      form := BlankForm(t);
      selectedLocation := None;
    }
  }

  /** Step 1 of the police sign-up: name, email, phone and date of birth. */
  method CheckPersonalDetails(form: SignupForm, errors: Errors) returns (newErrors: Errors, ok: bool)
    ensures ok <==> PersonalValid(form)
    ensures newErrors == PersonalErrors(errors, form)
  {
    newErrors := errors;
    ok := true;
    if Blank(form.name) {
      newErrors := newErrors[Name := FullNameRequired];
      ok := false;
    }
    var emailOk;
    newErrors, emailOk := CheckEmail(form.email, newErrors);
    ok := ok && emailOk;
    if Blank(form.phone) {
      newErrors := newErrors[Phone := PhoneRequired];
      ok := false;
    } else if !TenDigits(form.phone) {
      newErrors := newErrors[Phone := PhoneInvalid];
      ok := false;
    }
    if TenDigits(form.phone) { DigitsNotBlank(form.phone); }
    if form.dateOfBirth == "" {
      newErrors := newErrors[DateOfBirth := DateOfBirthRequired];
      ok := false;
    }
  }

  /** Step 2 of the police sign-up: badge, designation, station and department. */
  method CheckServiceDetails(form: SignupForm, errors: Errors) returns (newErrors: Errors, ok: bool)
    ensures ok <==> ServiceValid(form)
    ensures newErrors == ServiceErrors(errors, form)
  {
    newErrors := errors;
    ok := true;
    if Blank(form.badgeId) {
      newErrors := newErrors[BadgeId := BadgeRequired];
      ok := false;
    }
    if Blank(form.designation) {
      newErrors := newErrors[Designation := DesignationRequired];
      ok := false;
    }
    if Blank(form.policeStation) {
      newErrors := newErrors[PoliceStation := StationRequired];
      ok := false;
    }
    if Blank(form.department) {
      newErrors := newErrors[Department := DepartmentRequired];
      ok := false;
    }
  }

  /** The email check shared by both forms: required, then well formed. */
  method CheckEmail(email: string, errors: Errors) returns (newErrors: Errors, ok: bool)
    ensures ok <==> ValidEmail(email)
    ensures newErrors == Put(errors, Email, EmailRule(email))
  {
    newErrors := errors;
    ok := true;
    if Blank(email) {
      newErrors := newErrors[Email := EmailRequired];
      ok := false;
    } else if !ValidEmail(email) {
      newErrors := newErrors[Email := EmailInvalid];
      ok := false;
    }
    if ValidEmail(email) { ValidEmailNotBlank(email); }
  }
}
