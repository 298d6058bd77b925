/**
 * The sign-up form state shared by the five steps (signupContext.tsx): the
 * form record, its initial values, the shallow merge that applies a partial
 * update, and the reset.
 */
module SignupContext {

  /** The form's fields. */
  datatype Field =
    | FullName | Email | Password | PreferredName | Relationship | DateOfBirth | PrimaryLanguage
    | LifeStory | Hobbies | ImportantPeople
    | CompanionName | VoiceSelection | ChattinessLevel | ConversationTone
    | WakeUpTime | Bedtime | CognitiveActivities | Reminders
    | ReportFrequency | NotificationPreferences

  /** A field's value: a string, or a list of strings. */
  datatype Value = Text(s: string) | Items(items: seq<string>)

  /** The form record, and a `Partial` of it, as a map from field to value. */
  type Form = map<Field, Value>

  predicate IsListField(f: Field)
  {
    f == Hobbies || f == ImportantPeople || f == CognitiveActivities || f == NotificationPreferences
  }

  /** Each present field holds a value of its declared kind. */
  predicate WellTyped(form: Form)
  {
    forall f :: f in form ==> (form[f].Items? <==> IsListField(f))
  }

  /** Every field is present: a full `SignupFormData` rather than a `Partial`. */
  predicate Complete(form: Form)
  {
    forall f: Field :: f in form
  }

  const AllFields: set<Field> := {
    FullName, Email, Password, PreferredName, Relationship, DateOfBirth, PrimaryLanguage,
    LifeStory, Hobbies, ImportantPeople,
    CompanionName, VoiceSelection, ChattinessLevel, ConversationTone,
    WakeUpTime, Bedtime, CognitiveActivities, Reminders,
    ReportFrequency, NotificationPreferences}

  /** Every field is listed in `AllFields`. */
  lemma AllFieldsListed(f: Field)
    ensures f in AllFields
  {
    match f
    case FullName =>
    case Email =>
    case Password =>
    case PreferredName =>
    case Relationship =>
    case DateOfBirth =>
    case PrimaryLanguage =>
    case LifeStory =>
    case Hobbies =>
    case ImportantPeople =>
    case CompanionName =>
    case VoiceSelection =>
    case ChattinessLevel =>
    case ConversationTone =>
    case WakeUpTime =>
    case Bedtime =>
    case CognitiveActivities =>
    case Reminders =>
    case ReportFrequency =>
    case NotificationPreferences =>
  }

  /** A field's value in `initialFormData`. */
  function InitialValue(f: Field): (v: Value)
    ensures v.Items? <==> IsListField(f)
    ensures v.Items? ==> v.items == []
  {
    match f
    case FullName => Text("")
    case Email => Text("")
    case Password => Text("")
    case PreferredName => Text("")
    case Relationship => Text("")
    case DateOfBirth => Text("")
    case PrimaryLanguage => Text("English")
    case LifeStory => Text("")
    case Hobbies => Items([])
    case ImportantPeople => Items([])
    case CompanionName => Text("ELI")
    case VoiceSelection => Text("warm")
    case ChattinessLevel => Text("moderate")
    case ConversationTone => Text("friendly")
    case WakeUpTime => Text("07:00")
    case Bedtime => Text("22:00")
    case CognitiveActivities => Items([])
    case Reminders => Text("")
    case ReportFrequency => Text("weekly")
    case NotificationPreferences => Items([])
  }

  /** `initialFormData`. */
  const InitialFormData: Form := map f | f in AllFields :: InitialValue(f)

  /** The initial form is complete and well typed, with every list empty. */
  lemma InitialFormDataIsComplete()
    ensures Complete(InitialFormData) && WellTyped(InitialFormData)
    ensures forall f :: IsListField(f) ==> InitialFormData[f] == Items([])
    ensures forall f :: InitialFormData[f] == InitialValue(f)
  {
    forall f: Field
      ensures f in InitialFormData && InitialFormData[f] == InitialValue(f)
    {
      AllFieldsListed(f);
    }
  }

  /** The preset initial values of the companion and language fields. */
  lemma InitialPresets()
    ensures InitialFormData[PrimaryLanguage] == Text("English") && InitialFormData[CompanionName] == Text("ELI")
    ensures InitialFormData[VoiceSelection] == Text("warm") && InitialFormData[ChattinessLevel] == Text("moderate")
    ensures InitialFormData[ConversationTone] == Text("friendly")
  {
    InitialFormDataIsComplete();
  }

  /** The preset initial values of the routine fields; the account fields start empty. */
  lemma InitialRoutinePresets()
    ensures InitialFormData[WakeUpTime] == Text("07:00") && InitialFormData[Bedtime] == Text("22:00")
    ensures InitialFormData[ReportFrequency] == Text("weekly")
    ensures InitialFormData[FullName] == Text("") && InitialFormData[Email] == Text("")
  {
    InitialFormDataIsComplete();
  }

  /** `updateFormData`: `{ ...prev, ...data }`. */
  function UpdateFormData(form: Form, partial: Form): (r: Form)
    ensures r.Keys == form.Keys + partial.Keys
    ensures forall f :: f in partial ==> r[f] == partial[f]
    ensures forall f :: f in form && f !in partial ==> r[f] == form[f]
  {
    form + partial
  }

  /** A well-typed update keeps the form complete and well typed. */
  lemma UpdateKeepsShape(form: Form, partial: Form)
    requires Complete(form) && WellTyped(form) && WellTyped(partial)
    ensures Complete(UpdateFormData(form, partial)) && WellTyped(UpdateFormData(form, partial))
  {
  }

  /** An empty update changes nothing. */
  lemma EmptyUpdateIsIdentity(form: Form)
    ensures UpdateFormData(form, map[]) == form
  {
  }

  /** Applying the same update twice is applying it once. */
  lemma UpdateIdempotent(form: Form, partial: Form)
    ensures UpdateFormData(UpdateFormData(form, partial), partial) == UpdateFormData(form, partial)
  {
  }

  /** Two updates in a row are one update with the later values winning. */
  lemma UpdatesCompose(form: Form, p: Form, q: Form)
    ensures UpdateFormData(UpdateFormData(form, p), q) == UpdateFormData(form, UpdateFormData(p, q))
  {
  }

  /** `resetFormData`: whatever was entered, the initial values are back. */
  function ResetFormData(form: Form): (r: Form)
    ensures Complete(r) && WellTyped(r)
    ensures forall f :: r[f] == InitialValue(f)
  {
    InitialFormDataIsComplete();
    InitialFormData
  }
}
