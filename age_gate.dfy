/**
 * The AgeGate component: a birth-date form with a language dropdown. Its
 * local state is the three date fields, the chosen language and an error
 * message; it talks to the App only through the `onSetLanguage` and
 * `onVerify` callbacks, and it only ever reads the store.
 */
module AgeGate {
  import opened Wrappers
  import opened Storage
  import App

  const PleaseEnter := "Please enter your birth date."
  const NotAllowed := "You are not allowed."

  /** The three text inputs, as the strings the browser hands over. */
  datatype BirthDate = BirthDate(day: string, month: string, year: string)

  const Blank := BirthDate("", "", "")

  datatype Field = Day | Month | Year

  datatype State = State(birthDate: BirthDate, language: string, error: string)

  const Initial := State(Blank, App.English, "")

  /** The value of one input. */
  function FieldOf(d: BirthDate, f: Field): string
  {
    match f
    case Day => d.day
    case Month => d.month
    case Year => d.year
  }

  /** `!day || !month || !year` is false: only the empty string is falsy. */
  predicate Filled(d: BirthDate)
  {
    d.day != "" && d.month != "" && d.year != ""
  }

  /** A date counts as missing exactly when one of its inputs is the empty string. */
  lemma MissingMeansEmptyInput(d: BirthDate)
    ensures !Filled(d) <==> exists f: Field :: FieldOf(d, f) == ""
  {
    assert FieldOf(d, Day) == d.day && FieldOf(d, Month) == d.month && FieldOf(d, Year) == d.year;
  }

  /**
   * The three ways a submission can end. `birthYear` is the year the browser
   * parses from "year-month-day", None where it cannot parse it (NaN);
   * `currentYear` is the year of the clock. The age counts calendar years
   * only: once the date is filled in, its month and day never change the
   * verdict.
   */
  datatype Verdict = Incomplete | Adult | Refused

  function Judge(d: BirthDate, birthYear: Option<int>, currentYear: int): (v: Verdict)
    ensures v == Incomplete <==> !Filled(d)
    ensures v == Adult ==> birthYear.Some? && birthYear.value <= currentYear - 18
    ensures Filled(d) && birthYear.Some? && birthYear.value <= currentYear - 18 ==> v == Adult
    ensures Filled(d) && birthYear.Some? && birthYear.value > currentYear - 18 ==> v == Refused
    ensures Filled(d) && birthYear.None? ==> v == Refused
  {
    if !Filled(d) then Incomplete
    else
      // userAge is NaN when the date does not parse, and NaN >= 18 is false
      var userAge := if birthYear.Some? then Some(currentYear - birthYear.value) else None;
      if userAge.Some? && userAge.value >= 18 then Adult else Refused
  }

  /** The mount effect: adopt the stored language, pass it up, and verify if the store says so. */
  function MountStep(g: State, a: App.State, items: Items): (r: (State, App.State))
    ensures r.0.language == App.ResolveLanguage(items)
    ensures r.1.language == r.0.language
    ensures r.1.ageVerified <==> a.ageVerified || Lookup(items, "ageVerified") == Some("true")
    ensures r.0.birthDate == g.birthDate && r.0.error == g.error
  {
    var lang := App.ResolveLanguage(items);
    var a' := a.(language := lang);
    (g.(language := lang), if App.StoredVerified(items) then a'.(ageVerified := true) else a')
  }

  /** handleSubmit. */
  function SubmitStep(g: State, a: App.State, birthYear: Option<int>, currentYear: int): (r: (State, App.State))
    ensures !Filled(g.birthDate) ==> r == (g.(error := PleaseEnter), a)
    ensures Filled(g.birthDate) && birthYear.Some? && currentYear - birthYear.value >= 18 ==>
      r == (g, App.State(true, g.language))
    ensures Filled(g.birthDate) && (birthYear.None? || currentYear - birthYear.value < 18) ==>
      r == (State(Blank, g.language, NotAllowed), a)
    ensures r.1.ageVerified <==> a.ageVerified || Judge(g.birthDate, birthYear, currentYear) == Adult
  {
    match Judge(g.birthDate, birthYear, currentYear)
    case Incomplete => (g.(error := PleaseEnter), a)
    case Adult => (g, a.(language := g.language).(ageVerified := true))
    case Refused => (g.(error := NotAllowed, birthDate := Blank), a)
  }

  /** An onChange of one date input. */
  function EditStep(g: State, f: Field, value: string): (r: State)
    ensures r.language == g.language && r.error == g.error
    ensures r.birthDate.day == (if f == Day then value else g.birthDate.day)
    ensures r.birthDate.month == (if f == Month then value else g.birthDate.month)
    ensures r.birthDate.year == (if f == Year then value else g.birthDate.year)
  {
    var d := g.birthDate;
    g.(birthDate := match f
      case Day => d.(day := value)
      case Month => d.(month := value)
      case Year => d.(year := value))
  }

  class Component {
    const storage: LocalStorage
    const parent: App.Component
    var birthDate: BirthDate
    var language: string
    var error: string

    function Model(): State
      reads this
    {
      State(birthDate, language, error)
    }

    constructor (storage: LocalStorage, parent: App.Component)
      ensures this.storage == storage && this.parent == parent
      ensures Model() == Initial
    {
      this.storage := storage;
      this.parent := parent;
      birthDate := Blank;
      language := App.English;
      error := "";
    }

    method Mount()
      modifies this, parent
      ensures (Model(), parent.Model()) == MountStep(old(Model()), old(parent.Model()), storage.items)
      ensures storage.items == old(storage.items)
    {
      var verified := storage.GetItem("ageVerified");
      var stored := storage.GetItem("language");
      var lang := OrElse(stored, App.English);
      language := lang;
      parent.SetLanguage(lang);
      if verified == Some("true") {
        parent.OnVerify();
      }
    }

    method Submit(birthYear: Option<int>, currentYear: int)
      modifies this, parent
      ensures (Model(), parent.Model()) == SubmitStep(old(Model()), old(parent.Model()), birthYear, currentYear)
      ensures storage.items == old(storage.items)
    {
      if birthDate.day == "" || birthDate.month == "" || birthDate.year == "" {
        error := PleaseEnter;
        return;
      }
      var userAge := if birthYear.Some? then Some(currentYear - birthYear.value) else None;
      if userAge.Some? && userAge.value >= 18 {
        parent.SetLanguage(language);
        parent.OnVerify();
      } else {
        error := NotAllowed;
        birthDate := Blank;
      }
    }

    method Edit(f: Field, value: string)
      modifies this
      ensures Model() == EditStep(old(Model()), f, value)
    {
      match f
      case Day => birthDate := birthDate.(day := value);
      case Month => birthDate := birthDate.(month := value);
      case Year => birthDate := birthDate.(year := value);
    }

    /** The dropdown's onChange: the gate's own language only. */
    method ChooseLanguage(lang: string)
      modifies this
      ensures Model() == old(Model()).(language := lang)
    {
      language := lang;
    }
  }
}
