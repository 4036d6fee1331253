/**
 * The five-step "report a missing person" wizard: the per-step field rules
 * of `validateStep`, the error messages they leave behind, the edit handler
 * that clears a field's message, and the bounded Next/Back navigation.
 *
 * Text inputs and uploaded files are both held as strings keyed by the
 * field; a missing key reads as "", which JavaScript treats as
 * false. A shown message is a key of the error map; clearing it to ""
 * removes the key. Fields no rule reads (traits, units, extra photos) are left out.
 */
module ReportWizard {
  import opened Wrappers
  import opened Text
  import opened FieldMessages

  /** The form fields the rules read (the keys of `formData` and of `errors`). */
  datatype Field =
    | FullName | Age | Gender | Photo
    | LastSeenLocation | LastSeenDate | LastSeenTime
    | Height | Weight | HairColor | EyeColor
    | ReporterName | Relationship | MobileNumber | EmailAddress
    | AadhaarImage

  /** The wizard's form values, by field. */
  type Form = map<Field, string>

  /** `form[key]`, with a missing key read as "". */
  function Get(form: Form, key: Field): string
  {
    if key in form then form[key] else ""
  }

  /** The messages `validateStep` can show. */
  datatype Message =
    | FullNameRequired | AgeRequired | AgeInvalid | GenderRequired | PhotoRequired
    | LastSeenLocationRequired | LastSeenDateRequired | LastSeenTimeRequired
    | HeightRequired | HeightInvalid | WeightRequired | WeightInvalid | HairColorRequired | EyeColorRequired
    | ReporterNameRequired | RelationshipRequired | MobileRequired | MobileInvalid | EmailInvalid
    | AadhaarImageRequired

  /** The text shown for each message. */
  function MessageText(m: Message): string
  {
    match m
    case FullNameRequired => "Full name is required"
    case AgeRequired => "Age is required"
    case AgeInvalid => "Please enter a valid age"
    case GenderRequired => "Gender is required"
    case PhotoRequired => "A recent photo is required"
    case LastSeenLocationRequired => "Last seen location is required"
    case LastSeenDateRequired => "Last seen date is required"
    case LastSeenTimeRequired => "Last seen time is required"
    case HeightRequired => "Height is required"
    case HeightInvalid => "Please enter a valid height"
    case WeightRequired => "Weight is required"
    case WeightInvalid => "Please enter a valid weight"
    case HairColorRequired => "Hair color is required"
    case EyeColorRequired => "Eye color is required"
    case ReporterNameRequired => "Your name is required"
    case RelationshipRequired => "Relationship is required"
    case MobileRequired => "Mobile number is required"
    case MobileInvalid => "Please enter a valid 10-digit mobile number"
    case EmailInvalid => "Please enter a valid email address"
    case AadhaarImageRequired => "Aadhaar card image is required for verification"
  }

  /** The messages on screen, by field; a field without a message has no key. */
  type Errors = map<Field, Message>

  const FirstStep := 1
  const LastStep := 5

  /** `!value.trim()`. */
  predicate Blank(value: string) { Trim(value) == "" }

  /** `!isNaN(Number(value)) && Number(value) > 0`. */
  predicate PositiveNumber(value: string)
  {
    JsNumber(value).Some? && JsNumber(value).value > 0.0
  }

  /** An age the first step accepts: not `isNaN(Number(value)) || Number(value) <= 0 || Number(value) > 120`. */
  predicate ValidAge(value: string)
  {
    PositiveNumber(value) && JsNumber(value).value <= 120.0
  }

  /** Step 1 passes: a name, an age in (0, 120], a gender and a photo. */
  predicate MissingPersonValid(form: Form)
  {
    !Blank(Get(form, FullName)) && ValidAge(Get(form, Age)) && Get(form, Gender) != "" && Get(form, Photo) != ""
  }

  /** Step 2 passes: a last-seen place, date and time. */
  predicate LastSeenValid(form: Form)
  {
    !Blank(Get(form, LastSeenLocation)) && Get(form, LastSeenDate) != "" && Get(form, LastSeenTime) != ""
  }

  /** Step 3 passes: a positive height and weight, a hair and an eye colour. */
  predicate AppearanceValid(form: Form)
  {
    PositiveNumber(Get(form, Height)) && PositiveNumber(Get(form, Weight)) &&
    Get(form, HairColor) != "" && Get(form, EyeColor) != ""
  }

  /** Step 4 passes: a name, a relationship, ten digits of mobile number, and an email only if well formed. */
  predicate ReporterValid(form: Form)
  {
    !Blank(Get(form, ReporterName)) && !Blank(Get(form, Relationship)) && TenDigits(Get(form, MobileNumber)) &&
    (Get(form, EmailAddress) == "" || ValidEmail(Get(form, EmailAddress)))
  }

  /** What each step demands, stated field by field; a step outside 1..5 has no rules. */
  predicate StepValid(form: Form, step: int)
    ensures !(1 <= step <= 5) ==> StepValid(form, step)
    ensures step == 4 && StepValid(form, step) ==> TenDigits(Get(form, MobileNumber)) && !Blank(Get(form, ReporterName))
  {
    if step == 1 then MissingPersonValid(form)
    else if step == 2 then LastSeenValid(form)
    else if step == 3 then AppearanceValid(form)
    else if step == 4 then ReporterValid(form)
    else if step == 5 then Get(form, AadhaarImage) != ""
    else true
  }

  /** The error fields a step may write. */
  function StepFields(step: int): set<Field>
  {
    if step == 1 then {FullName, Age, Gender, Photo}
    else if step == 2 then {LastSeenLocation, LastSeenDate, LastSeenTime}
    else if step == 3 then {Height, Weight, HairColor, EyeColor}
    else if step == 4 then {ReporterName, Relationship, MobileNumber, EmailAddress}
    else if step == 5 then {AadhaarImage}
    else {}
  }

  /** A required-text rule: its message when the trimmed value is empty. */
  function RequiredText(value: string, m: Message): Option<Message>
  {
    if Blank(value) then Some(m) else None
  }

  /** A required-choice rule (no trim): its message when the value is "". */
  function Required(value: string, m: Message): Option<Message>
  {
    if value == "" then Some(m) else None
  }

  /** A required number: one message when blank, another when not a positive number. */
  function NumberRule(value: string, missing: Message, invalid: Message): Option<Message>
  {
    if Blank(value) then Some(missing)
    else if !PositiveNumber(value) then Some(invalid)
    else None
  }

  function AgeRule(value: string): Option<Message>
  {
    if Blank(value) then Some(AgeRequired)
    else if !ValidAge(value) then Some(AgeInvalid)
    else None
  }

  function MobileRule(value: string): Option<Message>
  {
    if Blank(value) then Some(MobileRequired)
    else if !TenDigits(value) then Some(MobileInvalid)
    else None
  }

  function EmailRule(value: string): Option<Message>
  {
    if value != "" && !ValidEmail(value) then Some(EmailInvalid) else None
  }

  /** The step 1 rules' messages written over `errors`. */
  function MissingPersonErrors(errors: Errors, form: Form): Errors
  {
    Put(Put(Put(Put(errors, FullName, RequiredText(Get(form, FullName), FullNameRequired)),
      Age, AgeRule(Get(form, Age))),
      Gender, Required(Get(form, Gender), GenderRequired)),
      Photo, Required(Get(form, Photo), PhotoRequired))
  }

  function LastSeenErrors(errors: Errors, form: Form): Errors
  {
    Put(Put(Put(errors, LastSeenLocation, RequiredText(Get(form, LastSeenLocation), LastSeenLocationRequired)),
      LastSeenDate, Required(Get(form, LastSeenDate), LastSeenDateRequired)),
      LastSeenTime, Required(Get(form, LastSeenTime), LastSeenTimeRequired))
  }

  function AppearanceErrors(errors: Errors, form: Form): Errors
  {
    Put(Put(Put(Put(errors, Height, NumberRule(Get(form, Height), HeightRequired, HeightInvalid)),
      Weight, NumberRule(Get(form, Weight), WeightRequired, WeightInvalid)),
      HairColor, Required(Get(form, HairColor), HairColorRequired)),
      EyeColor, Required(Get(form, EyeColor), EyeColorRequired))
  }

  function ReporterErrors(errors: Errors, form: Form): Errors
  {
    Put(Put(Put(Put(errors, ReporterName, RequiredText(Get(form, ReporterName), ReporterNameRequired)),
      Relationship, RequiredText(Get(form, Relationship), RelationshipRequired)),
      MobileNumber, MobileRule(Get(form, MobileNumber))),
      EmailAddress, EmailRule(Get(form, EmailAddress)))
  }

  function AadhaarErrors(errors: Errors, form: Form): Errors
  {
    Put(errors, AadhaarImage, Required(Get(form, AadhaarImage), AadhaarImageRequired))
  }

  /** The messages after one run of `validateStep(step)`: each fired rule's message written over `errors`. */
  function Validated(errors: Errors, form: Form, step: int): (r: Errors)
    ensures errors.Keys <= r.Keys
    ensures !(1 <= step <= 5) ==> r == errors
  {
    if step == 1 then MissingPersonErrors(errors, form)
    else if step == 2 then LastSeenErrors(errors, form)
    else if step == 3 then AppearanceErrors(errors, form)
    else if step == 4 then ReporterErrors(errors, form)
    else if step == 5 then AadhaarErrors(errors, form)
    else errors
  }

  /** The messages a step writes on a clean slate. */
  function StepErrors(form: Form, step: int): Errors
  {
    Validated(map[], form, step)
  }

  /** A blank string is the number 0, so it is never a positive number. */
  lemma BlankIsNotPositive(value: string)
    requires Blank(value)
    ensures !PositiveNumber(value)
  {
  }

  /** Ten digits are never blank. */
  lemma DigitsAreNotBlank(value: string)
    requires TenDigits(value)
    ensures !Blank(value)
  {
    TrimEmptyIff(value);
    assert IsDigit(value[0]) && !IsSpace(value[0]);
  }

  /** A step writes no message exactly when every one of its rules passes. */
  lemma StepErrorsEmptyIff(form: Form, step: int)
    ensures StepErrors(form, step) == map[] <==> StepValid(form, step)
  {
    if step == 1 {
      var age := Get(form, Age);
      if Blank(age) { BlankIsNotPositive(age); }
      var m1 := Put(map[], FullName, RequiredText(Get(form, FullName), FullNameRequired));
      var m2 := Put(m1, Age, AgeRule(age));
      var m3 := Put(m2, Gender, Required(Get(form, Gender), GenderRequired));
      PutEmpty(map[], FullName, RequiredText(Get(form, FullName), FullNameRequired));
      PutEmpty(m1, Age, AgeRule(age));
      PutEmpty(m2, Gender, Required(Get(form, Gender), GenderRequired));
      PutEmpty(m3, Photo, Required(Get(form, Photo), PhotoRequired));
    } else if step == 2 {
      var m1 := Put(map[], LastSeenLocation, RequiredText(Get(form, LastSeenLocation), LastSeenLocationRequired));
      var m2 := Put(m1, LastSeenDate, Required(Get(form, LastSeenDate), LastSeenDateRequired));
      PutEmpty(map[], LastSeenLocation, RequiredText(Get(form, LastSeenLocation), LastSeenLocationRequired));
      PutEmpty(m1, LastSeenDate, Required(Get(form, LastSeenDate), LastSeenDateRequired));
      PutEmpty(m2, LastSeenTime, Required(Get(form, LastSeenTime), LastSeenTimeRequired));
    } else if step == 3 {
      var height, weight := Get(form, Height), Get(form, Weight);
      if Blank(height) { BlankIsNotPositive(height); }
      if Blank(weight) { BlankIsNotPositive(weight); }
      var m1 := Put(map[], Height, NumberRule(height, HeightRequired, HeightInvalid));
      var m2 := Put(m1, Weight, NumberRule(weight, WeightRequired, WeightInvalid));
      var m3 := Put(m2, HairColor, Required(Get(form, HairColor), HairColorRequired));
      PutEmpty(map[], Height, NumberRule(height, HeightRequired, HeightInvalid));
      PutEmpty(m1, Weight, NumberRule(weight, WeightRequired, WeightInvalid));
      PutEmpty(m2, HairColor, Required(Get(form, HairColor), HairColorRequired));
      PutEmpty(m3, EyeColor, Required(Get(form, EyeColor), EyeColorRequired));
    } else if step == 4 {
      var mobile := Get(form, MobileNumber);
      if TenDigits(mobile) { DigitsAreNotBlank(mobile); }
      var m1 := Put(map[], ReporterName, RequiredText(Get(form, ReporterName), ReporterNameRequired));
      var m2 := Put(m1, Relationship, RequiredText(Get(form, Relationship), RelationshipRequired));
      var m3 := Put(m2, MobileNumber, MobileRule(mobile));
      PutEmpty(map[], ReporterName, RequiredText(Get(form, ReporterName), ReporterNameRequired));
      PutEmpty(m1, Relationship, RequiredText(Get(form, Relationship), RelationshipRequired));
      PutEmpty(m2, MobileNumber, MobileRule(mobile));
      PutEmpty(m3, EmailAddress, EmailRule(Get(form, EmailAddress)));
    } else if step == 5 {
      PutEmpty(map[], AadhaarImage, Required(Get(form, AadhaarImage), AadhaarImageRequired));
    }
  }

  /** Agreement with `errors` on `k`. */
  predicate SameAt(a: Errors, b: Errors, k: Field)
  {
    (k in a <==> k in b) && (k in a ==> a[k] == b[k])
  }

  lemma PutOther(errors: Errors, key: Field, rule: Option<Message>, k: Field)
    requires k != key
    ensures SameAt(Put(errors, key, rule), errors, k)
  {
  }

  lemma MissingPersonStaysInStep(errors: Errors, form: Form, k: Field)
    requires k !in StepFields(1)
    ensures SameAt(MissingPersonErrors(errors, form), errors, k)
  {
    var m1 := Put(errors, FullName, RequiredText(Get(form, FullName), FullNameRequired));
    var m2 := Put(m1, Age, AgeRule(Get(form, Age)));
    var m3 := Put(m2, Gender, Required(Get(form, Gender), GenderRequired));
    PutOther(errors, FullName, RequiredText(Get(form, FullName), FullNameRequired), k);
    PutOther(m1, Age, AgeRule(Get(form, Age)), k);
    PutOther(m2, Gender, Required(Get(form, Gender), GenderRequired), k);
    PutOther(m3, Photo, Required(Get(form, Photo), PhotoRequired), k);
  }

  lemma AppearanceStaysInStep(errors: Errors, form: Form, k: Field)
    requires k !in StepFields(3)
    ensures SameAt(AppearanceErrors(errors, form), errors, k)
  {
    var m1 := Put(errors, Height, NumberRule(Get(form, Height), HeightRequired, HeightInvalid));
    var m2 := Put(m1, Weight, NumberRule(Get(form, Weight), WeightRequired, WeightInvalid));
    var m3 := Put(m2, HairColor, Required(Get(form, HairColor), HairColorRequired));
    PutOther(errors, Height, NumberRule(Get(form, Height), HeightRequired, HeightInvalid), k);
    PutOther(m1, Weight, NumberRule(Get(form, Weight), WeightRequired, WeightInvalid), k);
    PutOther(m2, HairColor, Required(Get(form, HairColor), HairColorRequired), k);
    PutOther(m3, EyeColor, Required(Get(form, EyeColor), EyeColorRequired), k);
  }

  lemma ReporterStaysInStep(errors: Errors, form: Form, k: Field)
    requires k !in StepFields(4)
    ensures SameAt(ReporterErrors(errors, form), errors, k)
  {
    var m1 := Put(errors, ReporterName, RequiredText(Get(form, ReporterName), ReporterNameRequired));
    var m2 := Put(m1, Relationship, RequiredText(Get(form, Relationship), RelationshipRequired));
    var m3 := Put(m2, MobileNumber, MobileRule(Get(form, MobileNumber)));
    PutOther(errors, ReporterName, RequiredText(Get(form, ReporterName), ReporterNameRequired), k);
    PutOther(m1, Relationship, RequiredText(Get(form, Relationship), RelationshipRequired), k);
    PutOther(m2, MobileNumber, MobileRule(Get(form, MobileNumber)), k);
    PutOther(m3, EmailAddress, EmailRule(Get(form, EmailAddress)), k);
  }

  /** Validating a step leaves the message of every field outside that step as it was. */
  lemma ValidatedStaysInStep(errors: Errors, form: Form, step: int, k: Field)
    requires k !in StepFields(step)
    ensures SameAt(Validated(errors, form, step), errors, k)
  {
    if step == 1 {
      MissingPersonStaysInStep(errors, form, k);
    } else if step == 2 {
      var m1 := Put(errors, LastSeenLocation, RequiredText(Get(form, LastSeenLocation), LastSeenLocationRequired));
      var m2 := Put(m1, LastSeenDate, Required(Get(form, LastSeenDate), LastSeenDateRequired));
      PutOther(errors, LastSeenLocation, RequiredText(Get(form, LastSeenLocation), LastSeenLocationRequired), k);
      PutOther(m1, LastSeenDate, Required(Get(form, LastSeenDate), LastSeenDateRequired), k);
      PutOther(m2, LastSeenTime, Required(Get(form, LastSeenTime), LastSeenTimeRequired), k);
    } else if step == 3 {
      AppearanceStaysInStep(errors, form, k);
    } else if step == 4 {
      ReporterStaysInStep(errors, form, k);
    } else if step == 5 {
      PutOther(errors, AadhaarImage, Required(Get(form, AadhaarImage), AadhaarImageRequired), k);
    }
  }

  /** Step 1: the missing person's name, age, gender and photo. */
  method CheckMissingPerson(form: Form, errors: Errors) returns (newErrors: Errors, ok: bool)
    ensures ok <==> MissingPersonValid(form)
    ensures newErrors == MissingPersonErrors(errors, form)
  {
    newErrors := errors;
    ok := true;
    if Blank(Get(form, FullName)) {
      newErrors := newErrors[FullName := FullNameRequired];
      ok := false;
    }
    var age := Get(form, Age);
    if Blank(age) {
      BlankIsNotPositive(age);
      newErrors := newErrors[Age := AgeRequired];
      ok := false;
    } else if !ValidAge(age) {
      newErrors := newErrors[Age := AgeInvalid];
      ok := false;
    }
    if Get(form, Gender) == "" {
      newErrors := newErrors[Gender := GenderRequired];
      ok := false;
    }
    if Get(form, Photo) == "" {
      newErrors := newErrors[Photo := PhotoRequired];
      ok := false;
    }
  }

  /** Step 2: where and when the person was last seen. */
  method CheckLastSeen(form: Form, errors: Errors) returns (newErrors: Errors, ok: bool)
    ensures ok <==> LastSeenValid(form)
    ensures newErrors == LastSeenErrors(errors, form)
  {
    newErrors := errors;
    ok := true;
    if Blank(Get(form, LastSeenLocation)) {
      newErrors := newErrors[LastSeenLocation := LastSeenLocationRequired];
      ok := false;
    }
    if Get(form, LastSeenDate) == "" {
      newErrors := newErrors[LastSeenDate := LastSeenDateRequired];
      ok := false;
    }
    if Get(form, LastSeenTime) == "" {
      newErrors := newErrors[LastSeenTime := LastSeenTimeRequired];
      ok := false;
    }
  }

  /** Step 3: height, weight, hair and eye colour. */
  method CheckAppearance(form: Form, errors: Errors) returns (newErrors: Errors, ok: bool)
    ensures ok <==> AppearanceValid(form)
    ensures newErrors == AppearanceErrors(errors, form)
  {
    newErrors := errors;
    ok := true;
    var height := Get(form, Height);
    if Blank(height) {
      BlankIsNotPositive(height);
      newErrors := newErrors[Height := HeightRequired];
      ok := false;
    } else if !PositiveNumber(height) {
      newErrors := newErrors[Height := HeightInvalid];
      ok := false;
    }
    var weight := Get(form, Weight);
    if Blank(weight) {
      BlankIsNotPositive(weight);
      newErrors := newErrors[Weight := WeightRequired];
      ok := false;
    } else if !PositiveNumber(weight) {
      newErrors := newErrors[Weight := WeightInvalid];
      ok := false;
    }
    if Get(form, HairColor) == "" {
      newErrors := newErrors[HairColor := HairColorRequired];
      ok := false;
    }
    if Get(form, EyeColor) == "" {
      newErrors := newErrors[EyeColor := EyeColorRequired];
      ok := false;
    }
  }

  /** Step 4: the reporter's name, relationship, mobile number and optional email. */
  method CheckReporter(form: Form, errors: Errors) returns (newErrors: Errors, ok: bool)
    ensures ok <==> ReporterValid(form)
    ensures newErrors == ReporterErrors(errors, form)
  {
    newErrors := errors;
    ok := true;
    if Blank(Get(form, ReporterName)) {
      newErrors := newErrors[ReporterName := ReporterNameRequired];
      ok := false;
    }
    if Blank(Get(form, Relationship)) {
      newErrors := newErrors[Relationship := RelationshipRequired];
      ok := false;
    }
    var mobile := Get(form, MobileNumber);
    if Blank(mobile) {
      newErrors := newErrors[MobileNumber := MobileRequired];
      ok := false;
    } else if !TenDigits(mobile) {
      newErrors := newErrors[MobileNumber := MobileInvalid];
      ok := false;
    }
    if TenDigits(mobile) { DigitsAreNotBlank(mobile); }
    var email := Get(form, EmailAddress);
    if email != "" && !ValidEmail(email) {
      newErrors := newErrors[EmailAddress := EmailInvalid];
      ok := false;
    }
  }

  /** Step 5: the reporter's Aadhaar card image. */
  method CheckAadhaar(form: Form, errors: Errors) returns (newErrors: Errors, ok: bool)
    ensures ok <==> Get(form, AadhaarImage) != ""
    ensures newErrors == AadhaarErrors(errors, form)
  {
    newErrors := errors;
    ok := true;
    if Get(form, AadhaarImage) == "" {
      newErrors := newErrors[AadhaarImage := AadhaarImageRequired];
      ok := false;
    }
  }

  /** The wizard's state: the form, the visible messages and the current step. */
  class SearchWizard {
    var form: Form
    var errors: Errors
    var step: int

    ghost predicate Valid()
      reads this
    {
      FirstStep <= step <= LastStep
    }

    constructor ()
      ensures Valid() && step == FirstStep && form == map[] && errors == map[]
    {
      form := map[];
      errors := map[];
      step := FirstStep;
    }

    /** `handleChange` / `handleFileChange`: store the value and clear that field's message if one is shown. */
    method HandleChange(name: Field, value: string)
      modifies this`form, this`errors
      ensures form == old(form)[name := value]
      ensures errors == old(errors) - {name}
    {
      form := form[name := value];
      if name in errors {
        errors := errors - {name};
      }
    }

    /**
     * `validateStep(s)`: run the step's rules, write each failing field's
     * message over the current messages (a passing field's old message is
     * left as it was), and report whether none failed.
     */
    method ValidateStep(s: int) returns (ok: bool)
      modifies this`errors
      ensures ok <==> StepValid(form, s)
      ensures errors == Validated(old(errors), form, s)
    {
      if s == 1 {
        errors, ok := CheckMissingPerson(form, errors);
      } else if s == 2 {
        errors, ok := CheckLastSeen(form, errors);
      } else if s == 3 {
        errors, ok := CheckAppearance(form, errors);
      } else if s == 4 {
        errors, ok := CheckReporter(form, errors);
      } else if s == 5 {
        errors, ok := CheckAadhaar(form, errors);
      } else {
        ok := true;
      }
    }

    /** `handleNextStep`: advance one step, never past the last, and only when the current step validates. */
    method HandleNextStep() returns (ok: bool)
      requires Valid()
      modifies this`errors, this`step
      ensures Valid()
      ensures ok <==> StepValid(form, old(step))
      ensures errors == Validated(old(errors), form, old(step))
      ensures step == if ok && old(step) < LastStep then old(step) + 1 else old(step)
    {
      ok := ValidateStep(step);
      if ok {
        step := if step < LastStep then step + 1 else step;
      }
    }

    /** `handlePrevStep`: go back one step, never before the first; nothing is validated. */
    method HandlePrevStep()
      requires Valid()
      modifies this`step
      ensures Valid()
      ensures step == if old(step) > FirstStep then old(step) - 1 else old(step)
    {
      step := if step > FirstStep then step - 1 else step;
    }
  }
}
