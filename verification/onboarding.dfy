/**
  The "become a provider" wizard: a landing step (1), three form steps
  (2 personal information, 3 service information, 4 verification) and a
  confirmation step (5) reached by submitting. The application form is a
  record of three sections, each updated one field at a time.
 */
module Onboarding {
  import opened Seqs

  datatype PersonalInfo = PersonalInfo(
    firstName: string, lastName: string, email: string, phone: string, address: string)

  datatype ServiceInfo = ServiceInfo(
    category: string, title: string, description: string, experience: string,
    hourlyRate: string, availability: seq<string>)

  datatype Verification = Verification(
    hasInsurance: bool, hasLicense: bool, backgroundCheck: bool)

  datatype Application = Application(
    personalInfo: PersonalInfo, serviceInfo: ServiceInfo, verification: Verification)

  /** The field names the page passes to each section's update function. */
  datatype PersonalField = FirstName | LastName | Email | Phone | Address
  datatype ServiceField = Category | Title | Description | Experience | HourlyRate
  datatype VerificationField = HasInsurance | HasLicense | BackgroundCheck

  /** The days offered for availability, in display order. */
  const AvailabilityOptions: seq<string> :=
    ["Monday", "Tuesday", "Wednesday", "Thursday", "Friday", "Saturday", "Sunday"]

  /** The form as the page first shows it: every text empty, no day chosen,
      every box unchecked. */
  function InitialApplication(): (a: Application)
    ensures forall f :: PersonalGet(a.personalInfo, f) == ""
    ensures forall f :: ServiceGet(a.serviceInfo, f) == "" && a.serviceInfo.availability == []
    ensures forall f :: !VerificationGet(a.verification, f)
  {
    Application(
      PersonalInfo("", "", "", "", ""),
      ServiceInfo("", "", "", "", "", []),
      Verification(false, false, false))
  }

  function PersonalGet(p: PersonalInfo, f: PersonalField): string {
    match f
    case FirstName => p.firstName
    case LastName => p.lastName
    case Email => p.email
    case Phone => p.phone
    case Address => p.address
  }

  function ServiceGet(s: ServiceInfo, f: ServiceField): string {
    match f
    case Category => s.category
    case Title => s.title
    case Description => s.description
    case Experience => s.experience
    case HourlyRate => s.hourlyRate
  }

  function VerificationGet(v: Verification, f: VerificationField): bool {
    match f
    case HasInsurance => v.hasInsurance
    case HasLicense => v.hasLicense
    case BackgroundCheck => v.backgroundCheck
  }

  /** `updatePersonalInfo(field, value)`: sets one personal field; the other
      personal fields and the two other sections are unchanged. */
  function UpdatePersonalInfo(a: Application, f: PersonalField, value: string): (r: Application)
    ensures PersonalGet(r.personalInfo, f) == value
    ensures forall g :: g != f ==> PersonalGet(r.personalInfo, g) == PersonalGet(a.personalInfo, g)
    ensures r.serviceInfo == a.serviceInfo && r.verification == a.verification
  {
    var p := a.personalInfo;
    var p' := match f
      case FirstName => p.(firstName := value)
      case LastName => p.(lastName := value)
      case Email => p.(email := value)
      case Phone => p.(phone := value)
      case Address => p.(address := value);
    a.(personalInfo := p')
  }

  /** `updateServiceInfo(field, value)` for the text fields of the service
      section; availability and the other sections are unchanged. */
  function UpdateServiceInfo(a: Application, f: ServiceField, value: string): (r: Application)
    ensures ServiceGet(r.serviceInfo, f) == value
    ensures forall g :: g != f ==> ServiceGet(r.serviceInfo, g) == ServiceGet(a.serviceInfo, g)
    ensures r.serviceInfo.availability == a.serviceInfo.availability
    ensures r.personalInfo == a.personalInfo && r.verification == a.verification
  {
    var s := a.serviceInfo;
    var s' := match f
      case Category => s.(category := value)
      case Title => s.(title := value)
      case Description => s.(description := value)
      case Experience => s.(experience := value)
      case HourlyRate => s.(hourlyRate := value);
    a.(serviceInfo := s')
  }

  /** `updateServiceInfo('availability', days)`: replaces the day list and
      nothing else. */
  function UpdateAvailability(a: Application, days: seq<string>): (r: Application)
    ensures r.serviceInfo.availability == days
    ensures forall g :: ServiceGet(r.serviceInfo, g) == ServiceGet(a.serviceInfo, g)
    ensures r.personalInfo == a.personalInfo && r.verification == a.verification
  {
    a.(serviceInfo := a.serviceInfo.(availability := days))
  }

  /** `updateVerification(field, value)`: sets one box; the other boxes and
      the two other sections are unchanged. */
  function UpdateVerification(a: Application, f: VerificationField, value: bool): (r: Application)
    ensures VerificationGet(r.verification, f) == value
    ensures forall g :: g != f ==> VerificationGet(r.verification, g) == VerificationGet(a.verification, g)
    ensures r.personalInfo == a.personalInfo && r.serviceInfo == a.serviceInfo
  {
    var v := a.verification;
    var v' := match f
      case HasInsurance => v.(hasInsurance := value)
      case HasLicense => v.(hasLicense := value)
      case BackgroundCheck => v.(backgroundCheck := value);
    a.(verification := v')
  }

  /** The predicate `d => d !== day` as a value. */
  function NotDay(day: string): string -> bool {
    d => d != day
  }

  /** The day list after clicking `day`: without every copy of `day` when it
      was chosen, otherwise with `day` appended. Either way `day` changes
      from chosen to not chosen or back, and no other day does. */
  function Toggled(days: seq<string>, day: string): (r: seq<string>)
    ensures day in r <==> day !in days
    ensures forall d :: d != day ==> (d in r <==> d in days)
  {
    if day in days then Filter(days, NotDay(day)) else days + [day]
  }

  /** Clicking a chosen day removes every copy of it and keeps the other days
      in order and with their multiplicity; clicking a day not chosen appends
      it at the end. */
  lemma ToggledSpec(days: seq<string>, day: string)
    ensures day in days ==>
      day !in Toggled(days, day) &&
      IsSubsequence(Toggled(days, day), days) &&
      forall d :: d != day ==> multiset(Toggled(days, day))[d] == multiset(days)[d]
    ensures day !in days ==> Toggled(days, day) == days + [day]
  {
    FilterExactly(days, NotDay(day));
  }

  /** No day is in the list twice. */
  ghost predicate NoRepeats(days: seq<string>) {
    forall d :: multiset(days)[d] <= 1
  }

  /** Clicking the offered days keeps the chosen days a list of offered days
      without repeats, as the form starts with (no day at all). */
  lemma ToggledKeepsOfferedDays(days: seq<string>, day: string)
    requires NoRepeats(days) && forall d :: d in days ==> d in AvailabilityOptions
    requires day in AvailabilityOptions
    ensures NoRepeats(Toggled(days, day))
    ensures forall d :: d in Toggled(days, day) ==> d in AvailabilityOptions
  {
    ToggledSpec(days, day);
    if day in days {
      FilterExactly(days, NotDay(day));
    } else {
      assert multiset(days + [day]) == multiset(days) + multiset{day};
    }
  }

  /** Clicking a day that is not chosen and then clicking it again gives back
      the original list. */
  lemma ToggleTwiceRestores(days: seq<string>, day: string)
    requires day !in days
    ensures Toggled(Toggled(days, day), day) == days
  {
    var once := days + [day];
    assert day in once;
    FilterAppend(days, [day], NotDay(day));
    FilterAll(days, NotDay(day));
    assert Filter([day], NotDay(day)) == [];
  }

  /** A button press that changes the step. */
  datatype StepEvent = Next | Previous | Submit

  /** The step after an event: `handleNext` moves forward only below 4,
      `handlePrevious` moves back only above 1, `handleSubmit` goes to 5. */
  function StepAfter(step: int, e: StepEvent): (r: int)
    ensures 1 <= step <= 5 ==> 1 <= r <= 5
    ensures 1 <= step <= 4 && e != Submit ==> 1 <= r <= 4
  {
    match e
    case Next => if step < 4 then step + 1 else step
    case Previous => if step > 1 then step - 1 else step
    case Submit => 5
  }

  /** The step after a sequence of events, applied in order. */
  function StepAfterAll(step: int, events: seq<StepEvent>): int
    decreases |events|
  {
    if events == [] then step else StepAfterAll(StepAfter(step, events[0]), events[1..])
  }

  /** Starting anywhere in 1..4, next/previous alone keep the step in 1..4:
      only submitting reaches 5. */
  lemma {:induction false} NavigationStaysInRange(step: int, events: seq<StepEvent>)
    requires 1 <= step <= 4
    requires forall i :: 0 <= i < |events| ==> events[i] != Submit
    ensures 1 <= StepAfterAll(step, events) <= 4
    decreases |events|
  {
    if events != [] {
      NavigationStaysInRange(StepAfter(step, events[0]), events[1..]);
    }
  }

  /** From the steps 1..4 a single event leads to 5 only when it is a submit. */
  lemma OnlySubmitConfirms(step: int, e: StepEvent)
    requires 1 <= step <= 4
    ensures StepAfter(step, e) == 5 <==> e == Submit
  {
  }

  /** What the page's buttons do at each step: step 1 only has "Get Started"
      (next); steps 2-4 have "Previous", disabled at step 2, and a forward
      button that submits at step 4; step 5 has no step button. */
  function ButtonEvents(step: int): (r: set<StepEvent>)
    ensures Next in r <==> 1 <= step <= 3
    ensures Previous in r <==> step == 3 || step == 4
    ensures Submit in r <==> step == 4
  {
    if step == 1 || step == 2 then {Next}
    else if step == 3 then {Previous, Next}
    else if step == 4 then {Previous, Submit}
    else {}
  }

  /** Events the buttons can actually send, one after the other. */
  ghost predicate ClickableFrom(step: int, events: seq<StepEvent>)
    decreases |events|
  {
    events == [] ||
    (events[0] in ButtonEvents(step) && ClickableFrom(StepAfter(step, events[0]), events[1..]))
  }

  /** With the page's buttons, the wizard started at step 1 stays in 1..5,
      never returns to step 1 once it has left it, and stays at 5 once
      submitted. */
  lemma {:induction false} ButtonsKeepWizardForward(step: int, events: seq<StepEvent>)
    requires 1 <= step <= 5
    requires ClickableFrom(step, events)
    ensures 1 <= StepAfterAll(step, events) <= 5
    ensures step > 1 ==> StepAfterAll(step, events) > 1
    ensures step == 5 ==> StepAfterAll(step, events) == 5
    decreases |events|
  {
    if events != [] {
      ButtonsKeepWizardForward(StepAfter(step, events[0]), events[1..]);
    }
  }

  /** The page's state: the current step and the application form. */
  class BecomeProviderPage {
    var currentStep: int
    var formData: Application

    ghost predicate Valid()
      reads this
    {
      1 <= currentStep <= 5
    }

    constructor ()
      ensures Valid()
      ensures currentStep == 1 && formData == InitialApplication()
    {
      currentStep := 1;
      formData := InitialApplication();
    }

    /** `handleNext`. */
    method HandleNext()
      requires Valid()
      modifies this`currentStep
      ensures Valid()
      ensures currentStep == StepAfter(old(currentStep), Next)
      ensures old(currentStep) < 4 ==> currentStep == old(currentStep) + 1
      ensures old(currentStep) >= 4 ==> currentStep == old(currentStep)
    {
      if currentStep < 4 {
        currentStep := currentStep + 1;
      }
    }

    /** `handlePrevious`. */
    method HandlePrevious()
      requires Valid()
      modifies this`currentStep
      ensures Valid()
      ensures currentStep == StepAfter(old(currentStep), Previous)
      ensures old(currentStep) > 1 ==> currentStep == old(currentStep) - 1
      ensures old(currentStep) <= 1 ==> currentStep == old(currentStep)
    {
      if currentStep > 1 {
        currentStep := currentStep - 1;
      }
    }

    /** `handleSubmit`: returns the application it logs and shows the
        confirmation step. */
    method HandleSubmit() returns (submitted: Application)
      requires Valid()
      modifies this`currentStep
      ensures Valid()
      ensures currentStep == 5 && currentStep == StepAfter(old(currentStep), Submit)
      ensures submitted == formData
    {
      submitted := formData;
      currentStep := 5;
    }

    method SetPersonalInfo(f: PersonalField, value: string)
      requires Valid()
      modifies this`formData
      ensures Valid()
      ensures formData == UpdatePersonalInfo(old(formData), f, value)
    {
      formData := UpdatePersonalInfo(formData, f, value);
    }

    method SetServiceInfo(f: ServiceField, value: string)
      requires Valid()
      modifies this`formData
      ensures Valid()
      ensures formData == UpdateServiceInfo(old(formData), f, value)
    {
      formData := UpdateServiceInfo(formData, f, value);
    }

    method SetVerification(f: VerificationField, value: bool)
      requires Valid()
      modifies this`formData
      ensures Valid()
      ensures formData == UpdateVerification(old(formData), f, value)
    {
      formData := UpdateVerification(formData, f, value);
    }

    /** `toggleAvailability(day)`. */
    method ToggleAvailability(day: string)
      requires Valid()
      modifies this`formData
      ensures Valid()
      ensures formData == UpdateAvailability(old(formData), Toggled(old(formData).serviceInfo.availability, day))
    {
      var days := formData.serviceInfo.availability;
      formData := UpdateAvailability(formData, Toggled(days, day));
    }
  }
}
