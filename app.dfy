/**
 * The top-level App component: two pieces of state, `ageVerified` and
 * `language`, filled from the store once on start-up, and the choice
 * between the age gate and the home page.
 */
module App {
  import opened Wrappers
  import opened Storage

  /** The language used whenever the store has none. */
  const English := "english"

  datatype State = State(ageVerified: bool, language: string)

  /** The state before the start-up effect has run. */
  const Initial := State(false, English)

  /** `getItem("ageVerified") === "true"`: strict equality, so null and every other string fail. */
  predicate StoredVerified(items: Items)
    ensures StoredVerified(items) <==> "ageVerified" in items && items["ageVerified"] == "true"
  {
    Lookup(items, "ageVerified") == Some("true")
  }

  /** `getItem("language") || "english"`. */
  function ResolveLanguage(items: Items): (lang: string)
    ensures lang != ""
    ensures "language" in items && items["language"] != "" ==> lang == items["language"]
    ensures lang != English ==> "language" in items && lang == items["language"]
    ensures "language" !in items || items["language"] == "" ==> lang == English
  {
    OrElse(Lookup(items, "language"), English)
  }

  /** The state the start-up effect leaves, whatever the state was before. */
  function Restore(items: Items): (a: State)
    ensures a.ageVerified <==> "ageVerified" in items && items["ageVerified"] == "true"
    ensures a.language != ""
    ensures "language" in items && items["language"] != "" ==> a.language == items["language"]
    ensures "language" !in items || items["language"] == "" ==> a.language == English
  {
    State(StoredVerified(items), ResolveLanguage(items))
  }

  /** What the App renders: the language switch always, then either the gate or Home. */
  datatype Main = Gate | Home(language: string)
  datatype View = View(switchLanguage: string, main: Main)

  function Render(a: State): (v: View)
    ensures v.main.Gate? <==> !a.ageVerified
    ensures v.main.Home? <==> a.ageVerified
    ensures v.main.Home? ==> v.main.language == a.language
    ensures v.switchLanguage == a.language
  {
    View(a.language, if a.ageVerified then Home(a.language) else Gate)
  }

  class Component {
    const storage: LocalStorage
    var ageVerified: bool
    var language: string

    function Model(): State
      reads this
    {
      State(ageVerified, language)
    }

    constructor (storage: LocalStorage)
      ensures this.storage == storage
      ensures Model() == Initial
    {
      this.storage := storage;
      ageVerified := false;
      language := English;
    }

    /** The start-up effect: reads the store, never writes it. */
    method Init()
      modifies this
      ensures Model() == Restore(storage.items)
      ensures storage.items == old(storage.items)
    {
      var verified := storage.GetItem("ageVerified");
      var lang := storage.GetItem("language");
      ageVerified := verified == Some("true");
      language := OrElse(lang, English);
    }

    /** The `onVerify` callback handed to the gate. */
    method OnVerify()
      modifies this
      ensures Model() == old(Model()).(ageVerified := true)
    {
      ageVerified := true;
    }

    /** The `setLanguage` setter handed to the gate and the language switch. */
    method SetLanguage(lang: string)
      modifies this
      ensures Model() == old(Model()).(language := lang)
    {
      language := lang;
    }

    method View() returns (v: View)
      ensures v.main.Gate? <==> !ageVerified
      ensures v.main.Home? ==> v.main.language == language
      ensures v.switchLanguage == language
    {
      v := Render(Model());
    }
  }
}
