/**
 * The LangSwitch component: two buttons that set the App's language and
 * persist it under the store key "language"; the button of the current
 * language is highlighted.
 */
module LangSwitch {
  import opened Wrappers
  import opened Storage
  import App

  const Sinhala := "sinhala"

  datatype Button = EnglishButton | SinhalaButton

  /** The argument each button's onClick passes to switchTo. */
  function LanguageOf(b: Button): (lang: string)
    ensures lang == App.English || lang == Sinhala
    ensures Highlighted(lang) == {b}
  {
    match b
    case EnglishButton => App.English
    case SinhalaButton => Sinhala
  }

  /** The buttons drawn highlighted for the current language. */
  function Highlighted(language: string): (r: set<Button>)
    ensures EnglishButton in r <==> language == App.English
    ensures SinhalaButton in r <==> language == Sinhala
    ensures |r| <= 1
  {
    (if language == App.English then {EnglishButton} else {})
      + (if language == Sinhala then {SinhalaButton} else {})
  }

  /** switchTo: the App's language and the store after one switch. */
  function SwitchStep(a: App.State, items: Items, lang: string): (r: (App.State, Items))
    ensures r.0.language == lang && r.0.ageVerified == a.ageVerified
    ensures Lookup(r.1, "language") == Some(lang)
    ensures forall k :: k != "language" ==> Lookup(r.1, k) == Lookup(items, k)
  {
    (a.(language := lang), Write(items, "language", lang))
  }

  /** Switching to the same language twice is the same as switching once. */
  lemma {:induction false} SwitchIdempotent(a: App.State, items: Items, lang: string)
    ensures var (a1, items1) := SwitchStep(a, items, lang);
            SwitchStep(a1, items1, lang) == (a1, items1)
  {
    var (a1, items1) := SwitchStep(a, items, lang);
    assert Write(items1, "language", lang) == items1;
  }

  /** A reload after a switch restores the switched-to language (the empty string falls back to English). */
  lemma {:induction false} SwitchSurvivesReload(a: App.State, items: Items, lang: string)
    ensures App.Restore(SwitchStep(a, items, lang).1).language == (if lang == "" then App.English else lang)
    ensures App.Restore(SwitchStep(a, items, lang).1).ageVerified == App.StoredVerified(items)
  {
  }

  method SwitchTo(app: App.Component, storage: LocalStorage, lang: string)
    modifies app, storage
    ensures (app.Model(), storage.items) == SwitchStep(old(app.Model()), old(storage.items), lang)
  {
    app.SetLanguage(lang);
    storage.SetItem("language", lang);
  }

  /** A click on a button: the only languages this component ever writes are English and Sinhala. */
  method Click(app: App.Component, storage: LocalStorage, b: Button)
    modifies app, storage
    ensures (app.Model(), storage.items) == SwitchStep(old(app.Model()), old(storage.items), LanguageOf(b))
    ensures storage.items["language"] == App.English || storage.items["language"] == Sinhala
  {
    SwitchTo(app, storage, LanguageOf(b));
  }
}
