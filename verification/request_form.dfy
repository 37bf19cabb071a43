/**
  The service request form: one flat record of answers, each control
  writing one field of it, plus three urgency buttons.
 */
module RequestForm {
  import opened Options

  /** The day picked in the calendar, as the calendar hands it over. */
  datatype CalendarDate = CalendarDate(epochMillis: int)

  datatype Request = Request(
    service: string,
    title: string,
    description: string,
    location: string,
    budget: string,
    urgency: string,
    date: Option<CalendarDate>,
    timePreference: string)

  /** The text fields the controls write by name. */
  datatype TextField = Service | Title | Description | Location | Budget | Urgency | TimePreference

  function Get(r: Request, f: TextField): string {
    match f
    case Service => r.service
    case Title => r.title
    case Description => r.description
    case Location => r.location
    case Budget => r.budget
    case Urgency => r.urgency
    case TimePreference => r.timePreference
  }

  /** The form as first shown: every text field empty and no date. */
  function InitialRequest(): (r: Request)
    ensures forall f :: Get(r, f) == ""
    ensures r.date == None
  {
    Request("", "", "", "", "", "", None, "")
  }

  /** `updateFormData(field, value)` for a text field: that field becomes
      `value`, every other field (the date included) is unchanged. */
  function UpdateFormData(r: Request, f: TextField, value: string): (r': Request)
    ensures Get(r', f) == value
    ensures forall g :: g != f ==> Get(r', g) == Get(r, g)
    ensures r'.date == r.date
  {
    match f
    case Service => r.(service := value)
    case Title => r.(title := value)
    case Description => r.(description := value)
    case Location => r.(location := value)
    case Budget => r.(budget := value)
    case Urgency => r.(urgency := value)
    case TimePreference => r.(timePreference := value)
  }

  /** `updateFormData('date', date)`: only the date changes. */
  function UpdateDate(r: Request, date: Option<CalendarDate>): (r': Request)
    ensures r'.date == date
    ensures forall g :: Get(r', g) == Get(r, g)
  {
    r.(date := date)
  }

  /** Two requests agree on every field. */
  lemma SameFieldsSame(a: Request, b: Request)
    requires forall f :: Get(a, f) == Get(b, f)
    requires a.date == b.date
    ensures a == b
  {
    assert Get(a, Service) == Get(b, Service) && Get(a, Title) == Get(b, Title);
    assert Get(a, Description) == Get(b, Description) && Get(a, Location) == Get(b, Location);
    assert Get(a, Budget) == Get(b, Budget) && Get(a, Urgency) == Get(b, Urgency);
    assert Get(a, TimePreference) == Get(b, TimePreference);
  }

  /** Writing the same value twice is writing it once, and a later write to
      a field overrides an earlier one. */
  lemma UpdateIdempotentAndLastWins(r: Request, f: TextField, v: string, w: string)
    ensures UpdateFormData(UpdateFormData(r, f, v), f, v) == UpdateFormData(r, f, v)
    ensures UpdateFormData(UpdateFormData(r, f, v), f, w) == UpdateFormData(r, f, w)
  {
    SameFieldsSame(UpdateFormData(UpdateFormData(r, f, v), f, v), UpdateFormData(r, f, v));
    SameFieldsSame(UpdateFormData(UpdateFormData(r, f, v), f, w), UpdateFormData(r, f, w));
  }

  /** Writes to two different fields commute. */
  lemma UpdatesOfDistinctFieldsCommute(r: Request, f: TextField, v: string, g: TextField, w: string)
    requires f != g
    ensures UpdateFormData(UpdateFormData(r, f, v), g, w) == UpdateFormData(UpdateFormData(r, g, w), f, v)
  {
    SameFieldsSame(UpdateFormData(UpdateFormData(r, f, v), g, w), UpdateFormData(UpdateFormData(r, g, w), f, v));
  }

  /** The three urgency buttons. */
  datatype UrgencyLevel = Flexible | WithinWeek | UrgentAsap

  /** The value a button writes into `urgency`. */
  function UrgencyValue(level: UrgencyLevel): (v: string)
    ensures v in {"flexible", "within-week", "urgent"}
  {
    match level
    case Flexible => "flexible"
    case WithinWeek => "within-week"
    case UrgentAsap => "urgent"
  }

  /** Different buttons write different values, so the value written tells
      which button was pressed. */
  lemma UrgencyValueInjective(a: UrgencyLevel, b: UrgencyLevel)
    ensures UrgencyValue(a) == UrgencyValue(b) <==> a == b
  {
  }

  /** Exactly the button whose value is the current urgency is shown as
      selected. */
  function SelectedUrgency(r: Request): (sel: Option<UrgencyLevel>)
    ensures sel.Some? ==> UrgencyValue(sel.value) == r.urgency
    ensures sel.None? ==> r.urgency !in {"flexible", "within-week", "urgent"}
  {
    if r.urgency == "flexible" then Some(Flexible)
    else if r.urgency == "within-week" then Some(WithinWeek)
    else if r.urgency == "urgent" then Some(UrgentAsap)
    else None
  }

  /** The form's state. */
  class ServiceRequestForm {
    var formData: Request

    constructor ()
      ensures formData == InitialRequest()
      ensures forall f :: Get(formData, f) == "" && formData.date == None
    {
      formData := InitialRequest();
    }

    /** `updateFormData(field, value)` for a text field. */
    method SetField(f: TextField, value: string)
      modifies this
      ensures formData == UpdateFormData(old(formData), f, value)
    {
      formData := UpdateFormData(formData, f, value);
    }

    /** `updateFormData('date', date)` from the calendar. */
    method SetDate(date: Option<CalendarDate>)
      modifies this
      ensures formData == UpdateDate(old(formData), date)
    {
      formData := UpdateDate(formData, date);
    }

    /** An urgency button: writes that level's value and nothing else; the
        urgency is then one of the three values and its button is the one
        shown as selected. */
    method ChooseUrgency(level: UrgencyLevel)
      modifies this
      ensures formData == UpdateFormData(old(formData), Urgency, UrgencyValue(level))
      ensures formData.urgency in {"flexible", "within-week", "urgent"}
      ensures SelectedUrgency(formData) == Some(level)
    {
      formData := UpdateFormData(formData, Urgency, UrgencyValue(level));
    }

    /** `handleSubmit`: hands the current answers to the log; the form is not
        changed (the method may modify nothing). */
    method HandleSubmit() returns (submitted: Request)
      ensures submitted == formData
    {
      submitted := formData;
    }
  }
}
