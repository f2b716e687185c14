/**
 * `ExpertOnboardingScreen`: the registration form, its three required-field
 * error flags, the entity the Register button builds, and how the screen
 * reacts to the save state.
 */
module Onboarding {
  import opened Wrappers
  import opened Text
  import Experts
  import ExpertVm
  import Platform

  /** A specialty: the stored key and the name shown in the menu. */
  datatype CategoryOption = CategoryOption(key: string, displayName: string)

  const CATEGORY_OPTIONS: seq<CategoryOption> := [
    CategoryOption("plumbing", "Plumbing"),
    CategoryOption("electrical", "Electrical"),
    CategoryOption("hvac", "HVAC"),
    CategoryOption("roofing", "Roofing"),
    CategoryOption("general", "General / Handyman"),
    CategoryOption("locksmith", "Locksmith")]

  /** The option keys, in menu order. */
  function OptionKeys(): (ks: seq<string>)
    ensures |ks| == |CATEGORY_OPTIONS|
    ensures forall i | 0 <= i < |ks| :: ks[i] == CATEGORY_OPTIONS[i].key
  {
    seq(|CATEGORY_OPTIONS|, i requires 0 <= i < |CATEGORY_OPTIONS| => CATEGORY_OPTIONS[i].key)
  }

  /** The text fields of the form, as typed. */
  datatype Form = Form(
    name: string,
    category: CategoryOption,
    phone: string,
    email: string,
    hourlyRate: string,
    availability: string,
    serviceArea: string,
    description: string,
    yearsExperience: string,
    certifications: string,
    nameError: bool,
    phoneError: bool,
    emailError: bool)

  /** The selected category is one of the menu's options. */
  ghost predicate WellFormed(f: Form) {
    f.category in CATEGORY_OPTIONS
  }

  datatype Field = Name | Phone | Email | HourlyRate | Availability | ServiceArea | Description | YearsExperience | Certifications

  /** The text a field currently holds. */
  function FieldText(f: Form, field: Field): string {
    match field
    case Name => f.name
    case Phone => f.phone
    case Email => f.email
    case HourlyRate => f.hourlyRate
    case Availability => f.availability
    case ServiceArea => f.serviceArea
    case Description => f.description
    case YearsExperience => f.yearsExperience
    case Certifications => f.certifications
  }

  /** The form as first shown: every field empty, the first option selected, no error shown. */
  function InitialForm(): (f: Form)
    ensures WellFormed(f) && f.category.key == "plumbing"
    ensures forall field: Field :: FieldText(f, field) == ""
    ensures !f.nameError && !f.phoneError && !f.emailError
  {
    Form("", CATEGORY_OPTIONS[0], "", "", "", "", "", "", "", "", false, false, false)
  }

  /** Typing into a field: replaces its text and clears that field's own error flag, if it has one. */
  function Edit(f: Form, field: Field, text: string): (f': Form)
    ensures FieldText(f', field) == text
    ensures forall g: Field | g != field :: FieldText(f', g) == FieldText(f, g)
    ensures f'.category == f.category
    ensures f'.nameError == (f.nameError && field != Name)
    ensures f'.phoneError == (f.phoneError && field != Phone)
    ensures f'.emailError == (f.emailError && field != Email)
  {
    match field
    case Name => f.(name := text, nameError := false)
    case Phone => f.(phone := text, phoneError := false)
    case Email => f.(email := text, emailError := false)
    case HourlyRate => f.(hourlyRate := text)
    case Availability => f.(availability := text)
    case ServiceArea => f.(serviceArea := text)
    case Description => f.(description := text)
    case YearsExperience => f.(yearsExperience := text)
    case Certifications => f.(certifications := text)
  }

  /** Of two edits to the same field, the later one wins completely. */
  lemma EditLastWins(f: Form, field: Field, a: string, b: string)
    ensures Edit(Edit(f, field, a), field, b) == Edit(f, field, b)
  {
  }

  /** Picking the i-th menu entry. */
  function SelectCategory(f: Form, i: nat): (f': Form)
    requires i < |CATEGORY_OPTIONS|
    ensures WellFormed(f')
    ensures f'.category == CATEGORY_OPTIONS[i] && f'.category.key == OptionKeys()[i]
    ensures f'.(category := f.category) == f
  {
    f.(category := CATEGORY_OPTIONS[i])
  }

  const NEW_RATING: real := 5.0

  /**
   * The entity Register hands over: text fields trimmed, the numbers parsed
   * from the untrimmed text with 0 for anything unparsable, rating 5.0.
   */
  function BuildEntity(f: Form, parseDouble: string -> Option<real>, now: int): (e: Experts.ExpertEntity)
    ensures e.id == 0 && e.createdAt == now && e.rating == NEW_RATING
    ensures e.category == f.category.key
    ensures e.name == Trim(f.name) && e.phone == Trim(f.phone) && e.email == Trim(f.email)
    ensures e.description == Trim(f.description) && e.availability == Trim(f.availability)
    ensures e.certifications == Trim(f.certifications) && e.serviceArea == Trim(f.serviceArea)
    ensures ParseInteger(f.yearsExperience, INT_MIN, INT_MAX).Some? ==> e.yearsExperience == ParseInteger(f.yearsExperience, INT_MIN, INT_MAX).value
    ensures ParseInteger(f.yearsExperience, INT_MIN, INT_MAX).None? ==> e.yearsExperience == 0
    ensures parseDouble(f.hourlyRate).Some? ==> e.hourlyRate == parseDouble(f.hourlyRate).value
    ensures parseDouble(f.hourlyRate).None? ==> e.hourlyRate == 0.0
  {
    Experts.ExpertEntity(
      name := Trim(f.name),
      category := f.category.key,
      phone := Trim(f.phone),
      email := Trim(f.email),
      hourlyRate := parseDouble(f.hourlyRate).GetOr(0.0),
      description := Trim(f.description),
      availability := Trim(f.availability),
      rating := NEW_RATING,
      yearsExperience := ParseInteger(f.yearsExperience, INT_MIN, INT_MAX).GetOr(0),
      certifications := Trim(f.certifications),
      serviceArea := Trim(f.serviceArea),
      createdAt := now)
  }

  /** The Register button: set each flag to its field's blankness, and register only when none is set. */
  function Submit(f: Form, parseDouble: string -> Option<real>, now: int): (r: (Form, Option<Experts.ExpertEntity>))
    ensures r.0 == f.(nameError := r.0.nameError, phoneError := r.0.phoneError, emailError := r.0.emailError)
    ensures r.1.Some? ==> r.1.value == BuildEntity(f, parseDouble, now)
  {
    var f' := f.(nameError := IsBlank(f.name), phoneError := IsBlank(f.phone), emailError := IsBlank(f.email));
    if !f'.nameError && !f'.phoneError && !f'.emailError then (f', Some(BuildEntity(f', parseDouble, now)))
    else (f', None)
  }

  /**
   * After a submit each flag is its field's blankness, and an entity is
   * registered exactly when name, phone and email are all non-blank. The
   * entity is then the one built from the form, so its name, phone and
   * email are non-empty.
   */
  lemma SubmitRegistersIffFilled(f: Form, parseDouble: string -> Option<real>, now: int)
    ensures var (f', reg) := Submit(f, parseDouble, now);
            && f'.nameError == IsBlank(f.name)
            && f'.phoneError == IsBlank(f.phone)
            && f'.emailError == IsBlank(f.email)
            && (reg.Some? <==> !IsBlank(f.name) && !IsBlank(f.phone) && !IsBlank(f.email))
            && (reg.Some? ==> reg.value == BuildEntity(f, parseDouble, now))
            && (reg.Some? ==> reg.value.name != [] && reg.value.phone != [] && reg.value.email != [])
  {
  }

  /** Every operation of the form keeps the selected category among the options. */
  lemma CategoryStaysAnOption(f: Form, field: Field, text: string, parseDouble: string -> Option<real>, now: int)
    requires WellFormed(f)
    ensures WellFormed(Edit(f, field, text))
    ensures WellFormed(Submit(f, parseDouble, now).0)
    ensures var reg := Submit(f, parseDouble, now).1;
            reg.Some? ==> reg.value.category in OptionKeys()
  {
    var i :| 0 <= i < |CATEGORY_OPTIONS| && CATEGORY_OPTIONS[i] == f.category;
    assert OptionKeys()[i] == f.category.key;
  }

  // ---------------------------------------------------------------------
  // Reaction to the save state

  const SUCCESS_MESSAGE: string := "Registration successful!"
  const ERROR_PREFIX: string := "Error: "

  /** What the screen does when the save state changes: a snackbar, a reset, a pop back. */
  datatype Effects = Effects(snackbar: Option<string>, resetState: bool, navigateBack: bool)

  function OnUiState(ui: ExpertVm.ExpertUiState): (fx: Effects)
    ensures fx.resetState <==> ui.Success? || ui.Error?
    ensures fx.navigateBack <==> ui.Success?
    ensures fx.snackbar.Some? <==> fx.resetState
    ensures ui.Success? ==> fx.snackbar == Some(SUCCESS_MESSAGE)
    ensures ui.Error? ==> fx.snackbar == Some(ERROR_PREFIX + ui.message)
  {
    match ui
    case Success => Effects(Some(SUCCESS_MESSAGE), true, true)
    case Error(m) => Effects(Some(ERROR_PREFIX + m), true, false)
    case _ => Effects(None, false, false)
  }

  /** The Register button is disabled exactly while saving. */
  function RegisterEnabled(ui: ExpertVm.ExpertUiState): bool {
    !ui.Saving?
  }

  /**
   * Once a save has started the button is disabled until the save ends;
   * whichever way it ends, and after the reset, it is enabled again.
   */
  lemma NoSecondRegisterWhileSaving(vm: ExpertVm.Vm, e: Experts.ExpertEntity, fault: Platform.Fault)
    requires ExpertVm.Valid(vm)
    ensures !RegisterEnabled(ExpertVm.BeginInsert(vm).ui)
    ensures RegisterEnabled(ExpertVm.FinishInsert(ExpertVm.BeginInsert(vm), e, fault).ui)
    ensures RegisterEnabled(ExpertVm.ResetState(vm).ui)
  {
  }

  /**
   * A filled-in form registered through the view model: a successful save
   * stores the built entity, shows the success snackbar, returns the state
   * to Idle and pops back; a failed one shows the error, returns to Idle and
   * stays. The app registers no onboarding destination and creates no
   * `ExpertViewModel`, so wiring `onRegister` to `insertExpert` and
   * `onResetState` to `resetState` is the screen's evident use, not code
   * the app contains.
   */
  lemma RegisterRoundTrip(f: Form, parseDouble: string -> Option<real>, now: int,
                          vm: ExpertVm.Vm, fault: Platform.Fault)
    requires ExpertVm.Valid(vm)
    requires !IsBlank(f.name) && !IsBlank(f.phone) && !IsBlank(f.email)
    ensures var e := Submit(f, parseDouble, now).1.value;
            var saved := ExpertVm.InsertExpert(vm, e, fault);
            var fx := OnUiState(saved.ui);
            var after := if fx.resetState then ExpertVm.ResetState(saved) else saved;
            && after.ui == ExpertVm.Idle
            && fx.navigateBack == fault.NoFault?
            && (fault.NoFault? ==> exists id :: id in after.experts.rows && after.experts.rows[id] == e.(id := id))
            && (fault.Threw? ==> after.experts == vm.experts)
  {
    var e := Submit(f, parseDouble, now).1.value;
    if fault.NoFault? {
      var (t', id) := Experts.InsertExpert(vm.experts, e);
      assert id in t'.rows && t'.rows[id] == e.(id := id);
    }
  }
}
