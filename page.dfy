/**
 * The whole page as one value: the store, the App's state and the gate's
 * state, driven by the user's events. Each event is one atomic step; gate
 * events only take effect while the gate is rendered (the App is not
 * verified). This is the level at which the page's promises are stated:
 * verification is never undone, the store is written only under
 * "language", and a reload recovers what the store holds.
 */
module Page {
  import opened Wrappers
  import opened Storage
  import App
  import AgeGate
  import LangSwitch

  datatype Session = Session(items: Items, app: App.State, gate: AgeGate.State)

  datatype Event =
    | EditField(field: AgeGate.Field, value: string)
    | ChooseLanguage(language: string)
    | Confirm(birthYear: Option<int>, currentYear: int)
    | Switch(button: LangSwitch.Button)

  /**
   * Loading the page on a store: both components start from their initial
   * state, then the gate's mount effect and the App's start-up effect run
   * (React runs the child's effect first).
   */
  function Open(items: Items): (s: Session)
    ensures s.items == items
    ensures s.app.ageVerified <==> Lookup(items, "ageVerified") == Some("true")
    ensures s.app.language == App.ResolveLanguage(items)
    ensures s.gate == AgeGate.Initial.(language := App.ResolveLanguage(items))
  {
    var (g, _) := AgeGate.MountStep(AgeGate.Initial, App.Initial, items);
    Session(items, App.Restore(items), g)
  }

  function Step(s: Session, e: Event): (t: Session)
    ensures s.app.ageVerified ==> t.app.ageVerified
    ensures !s.app.ageVerified && t.app.ageVerified ==>
      e.Confirm? && AgeGate.Judge(s.gate.birthDate, e.birthYear, e.currentYear) == AgeGate.Adult
    ensures forall k :: k != "language" ==> Lookup(t.items, k) == Lookup(s.items, k)
    ensures t.items != s.items ==> e.Switch? && t.items == Write(s.items, "language", LangSwitch.LanguageOf(e.button))
  {
    match e
    case Switch(b) =>
      var (a, items) := LangSwitch.SwitchStep(s.app, s.items, LangSwitch.LanguageOf(b));
      s.(app := a, items := items)
    case _ =>
      if s.app.ageVerified then s  // the gate is unmounted: its events cannot happen
      else match e
        case EditField(f, v) => s.(gate := AgeGate.EditStep(s.gate, f, v))
        case ChooseLanguage(l) => s.(gate := s.gate.(language := l))
        case Confirm(y, cy) =>
          var (g, a) := AgeGate.SubmitStep(s.gate, s.app, y, cy);
          s.(gate := g, app := a)
  }

  function Run(s: Session, events: seq<Event>): Session
    decreases |events|
  {
    if events == [] then s else Run(Step(s, events[0]), events[1..])
  }

  lemma {:induction false} RunAppend(s: Session, events: seq<Event>, e: Event)
    ensures Run(s, events + [e]) == Step(Run(s, events), e)
    decreases |events|
  {
    if events == [] {
      assert [e][1..] == [];
    } else {
      assert (events + [e])[1..] == events[1..] + [e];
      RunAppend(Step(s, events[0]), events[1..], e);
    }
  }

  /** Once the App is verified, no sequence of events makes it unverified. */
  lemma {:induction false} VerifiedIsMonotone(s: Session, events: seq<Event>)
    requires s.app.ageVerified
    ensures Run(s, events).app.ageVerified
    decreases |events|
  {
    if events != [] {
      VerifiedIsMonotone(Step(s, events[0]), events[1..]);
    }
  }

  /** Every key other than "language" keeps its stored value through any sequence of events. */
  lemma {:induction false} OnlyLanguageIsWritten(s: Session, events: seq<Event>, k: string)
    requires k != "language"
    ensures Lookup(Run(s, events).items, k) == Lookup(s.items, k)
    decreases |events|
  {
    if events != [] {
      OnlyLanguageIsWritten(Step(s, events[0]), events[1..], k);
    }
  }

  /** A stored language, when there is one, is English, Sinhala or the one the store started with. */
  predicate LanguageFrom(items: Items, original: Option<string>)
  {
    var v := Lookup(items, "language");
    v == original || v == Some(App.English) || v == Some(LangSwitch.Sinhala)
  }

  lemma {:induction false} StoredLanguageComesFromButtons(s: Session, events: seq<Event>, original: Option<string>)
    requires LanguageFrom(s.items, original)
    ensures LanguageFrom(Run(s, events).items, original)
    decreases |events|
  {
    if events != [] {
      var t := Step(s, events[0]);
      if t.items != s.items {
        assert Lookup(t.items, "language") == Some(LangSwitch.LanguageOf(events[0].button));
      }
      StoredLanguageComesFromButtons(t, events[1..], original);
    }
  }

  /**
   * Reloading after any session gives the verification flag the store had at
   * the start: passing the gate is never written to the store.
   */
  lemma ReopenForgetsVerification(items: Items, events: seq<Event>)
    ensures Open(Run(Open(items), events).items).app.ageVerified == App.StoredVerified(items)
  {
    OnlyLanguageIsWritten(Open(items), events, "ageVerified");
  }

  /** Reloading after a language switch opens the page, gate and App alike, in that language. */
  lemma ReopenAfterSwitch(items: Items, events: seq<Event>, b: LangSwitch.Button)
    ensures Open(Run(Open(items), events + [Switch(b)]).items).app.language == LangSwitch.LanguageOf(b)
    ensures Open(Run(Open(items), events + [Switch(b)]).items).gate.language == LangSwitch.LanguageOf(b)
  {
    RunAppend(Open(items), events, Switch(b));
  }

  /** The App's start-up effect and the gate's mount effect leave the App in the same state in either order. */
  lemma EffectOrderIrrelevant(items: Items)
    ensures AgeGate.MountStep(AgeGate.Initial, App.Restore(items), items).1 == App.Restore(items)
  {
  }

  /** Filling in 01/01/<year> on the form. */
  function FillIn(year: string): seq<Event>
  {
    [EditField(AgeGate.Day, "01"), EditField(AgeGate.Month, "01"), EditField(AgeGate.Year, year)]
  }

  /** An empty store, a birth year of 2010 in 2024: refused, the form cleared, nothing stored. */
  lemma ScenarioUnderage()
    ensures var s := Run(Open(map[]), FillIn("2010") + [Confirm(Some(2010), 2024)]);
            && !s.app.ageVerified
            && s.gate == AgeGate.State(AgeGate.Blank, App.English, AgeGate.NotAllowed)
            && s.items == map[]
  {
    var s0 := Open(map[]);
    var s1 := Step(s0, EditField(AgeGate.Day, "01"));
    var s2 := Step(s1, EditField(AgeGate.Month, "01"));
    var s3 := Step(s2, EditField(AgeGate.Year, "2010"));
    assert s3.gate.birthDate == AgeGate.BirthDate("01", "01", "2010");
    RunAppend(s0, FillIn("2010"), Confirm(Some(2010), 2024));
    assert Run(s0, FillIn("2010")) == s3 by {
      assert FillIn("2010")[1..][1..][1..] == [];
    }
  }

  /** An empty store, a birth year of 2000 in 2024: verified in English, yet the store stays empty. */
  lemma ScenarioAdult()
    ensures var s := Run(Open(map[]), FillIn("2000") + [Confirm(Some(2000), 2024)]);
            && s.app == App.State(true, App.English)
            && s.items == map[]
  {
    var s0 := Open(map[]);
    var s1 := Step(s0, EditField(AgeGate.Day, "01"));
    var s2 := Step(s1, EditField(AgeGate.Month, "01"));
    var s3 := Step(s2, EditField(AgeGate.Year, "2000"));
    assert s3.gate.birthDate == AgeGate.BirthDate("01", "01", "2000");
    RunAppend(s0, FillIn("2000"), Confirm(Some(2000), 2024));
    assert Run(s0, FillIn("2000")) == s3 by {
      assert FillIn("2000")[1..][1..][1..] == [];
    }
  }

  /**
   * A switch to Sinhala while the gate is shown does not reach the gate's own
   * language: passing the gate sets the App back to the gate's English, while
   * the store keeps Sinhala.
   */
  lemma ScenarioSwitchThenAdult()
    ensures var s := Run(Open(map[]), [Switch(LangSwitch.SinhalaButton)] + FillIn("2000") + [Confirm(Some(2000), 2024)]);
            && s.app == App.State(true, App.English)
            && s.items == map["language" := LangSwitch.Sinhala]
  {
    var s0 := Open(map[]);
    var s1 := Step(s0, Switch(LangSwitch.SinhalaButton));
    var s2 := Step(s1, EditField(AgeGate.Day, "01"));
    var s3 := Step(s2, EditField(AgeGate.Month, "01"));
    var s4 := Step(s3, EditField(AgeGate.Year, "2000"));
    assert s1.items == map["language" := LangSwitch.Sinhala];
    assert s4.gate == AgeGate.State(AgeGate.BirthDate("01", "01", "2000"), App.English, "");
    var evs := [Switch(LangSwitch.SinhalaButton)] + FillIn("2000");
    RunAppend(s0, evs, Confirm(Some(2000), 2024));
    assert Run(s0, evs) == s4 by {
      assert evs[1..] == FillIn("2000");
      assert evs[1..][1..][1..][1..] == [];
    }
  }

  /** A store that says verified, in Sinhala: Home at once, in Sinhala. */
  lemma ScenarioReturningVisitor()
    ensures var s := Open(map["ageVerified" := "true", "language" := "sinhala"]);
            && App.Render(s.app) == App.View(LangSwitch.Sinhala, App.Home(LangSwitch.Sinhala))
  {
  }

  /** Loading the page with the real components: effects in React's order, child first. */
  method OpenPage(storage: LocalStorage) returns (app: App.Component, gate: AgeGate.Component)
    ensures fresh(app) && fresh(gate)
    ensures app.storage == storage && gate.storage == storage && gate.parent == app
    ensures Session(storage.items, app.Model(), gate.Model()) == Open(storage.items)
    ensures storage.items == old(storage.items)
  {
    app := new App.Component(storage);
    gate := new AgeGate.Component(storage, app);
    gate.Mount();
    app.Init();
  }
}
