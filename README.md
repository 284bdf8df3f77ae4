# Age gate and language preference of the ward21 landing page

This project models, in Dafny, the small state machine that sits in front of
the ward21 landing page: an age gate that asks for a birth date, a language
choice between English and Sinhala, and the browser's `localStorage` that
keeps the language between visits.

- `storage.dfy` — `localStorage` as a class `Storage.LocalStorage` over a
  `map<string, string>`: `getItem` answers `None` for a missing key (the
  browser's `null`), `setItem` overwrites one key. `Storage.OrElse` is
  JavaScript's `v || fallback` on a string-or-null.
- `app.dfy` — the `App` component: state `ageVerified` and `language`, the
  start-up effect that reads the store, the `onVerify` and `setLanguage`
  callbacks it hands down, and the choice between the gate and Home.
- `age_gate.dfy` — the `AgeGate` component: the three date fields, its own
  language and its error message; the mount effect, `handleSubmit` and the
  input handlers. The three-way verdict of a submission is `AgeGate.Judge`.
- `lang_switch.dfy` — the `LangSwitch` component: `switchTo`, the two
  buttons and which of them is highlighted.
- `page.dfy` — the page as a whole, as a value `Page.Session` (store, App
  state, gate state) driven by user events, with the properties that span
  several events: verification is never undone, only `"language"` is ever
  written, and a reload recovers what the store holds.

The App and AgeGate classes keep their fields and have a `Model()` function that gives them as a
value; each method's postcondition equals the new model with a pure step
function of the old one (`AgeGate.SubmitStep`, `LangSwitch.SwitchStep`, …).
The step functions carry the outcome contracts and the lemmas are about them.

The model follows what the code does; in particular:

- The code never writes `"ageVerified"` to the store. `handleSubmit` only calls
  the callbacks (src/components/front/AgeGate.jsx:49-51) and `onVerify` only
  sets React state (src/App.jsx:21). A successful gate passes for the current
  visit only; `Page.ReopenForgetsVerification` proves that a reload restores
  whatever flag the store held before.
- The language picked in the gate's dropdown reaches the App on success but is
  never stored; only `LangSwitch` writes `"language"`.
- A filled-in date that the browser cannot parse gives a NaN age, and
  `NaN >= 18` is false: such a date is refused with "You are not allowed.",
  not met with "Please enter your birth date.".
- Only the empty string counts as a missing field (`!day` is JavaScript
  falsiness of a string, and only `""` is falsy).
- A language-switch click while the gate is shown changes the App's language
  and the store, but not the gate's own language. Passing the gate then sets
  the App back to the gate's language (src/components/front/AgeGate.jsx:50),
  while the store keeps the switched one; `Page.ScenarioSwitchThenAdult`
  shows this for a switch to Sinhala.

## Model

| member | source | states |
|---|---|---|
| Storage.Lookup | src/App.jsx:11-12 | getItem gives a value exactly for a stored key, and then the stored value; a missing key gives null |
| Storage.Write | src/components/partials/LangSwitch.jsx:13 | after setItem the key reads back the written value and every other key reads as before |
| Storage.OrElse | src/App.jsx:12 | `v \|\| fallback`: a non-empty string is kept; null and `""` give the fallback |
| Storage.LocalStorage.GetItem | src/App.jsx:11-12 | getItem answers a value exactly when the key is stored, and then the stored value |
| Storage.LocalStorage.SetItem | src/components/partials/LangSwitch.jsx:13 | setItem overwrites one key of the store |
| App.StoredVerified | src/App.jsx:11 | `getItem("ageVerified") === "true"` holds exactly when the key is stored with the exact string "true" |
| App.ResolveLanguage | src/App.jsx:12 | the stored language when present and non-empty, otherwise "english"; never empty |
| App.Restore | src/App.jsx:10-15 | after start-up, `ageVerified` holds exactly when the store maps "ageVerified" to "true", and the language is the stored non-empty one or "english" |
| App.Render | src/App.jsx:17-26 | the gate is shown exactly when not verified, Home exactly when verified and in the App's language; the switch always gets the App's language |
| App.Component.constructor | src/App.jsx:7-8 | before start-up the App is unverified and in English |
| App.Component.Init | src/App.jsx:10-15 | the start-up effect sets the state from the store and leaves the store as it was |
| App.Component.OnVerify | src/App.jsx:21 | `onVerify` sets `ageVerified` to true and changes nothing else |
| App.Component.SetLanguage | src/App.jsx:8 | the `setLanguage` setter changes the language only |
| App.Component.View | src/App.jsx:19-24 | the rendered view of the current state, gate or Home |
| AgeGate.Judge | src/components/front/AgeGate.jsx:36-55 | a date with an empty field is incomplete; a filled one passes exactly when its parsed year is at most `currentYear - 18`, whatever the month and day; an unparseable one is refused |
| AgeGate.MissingMeansEmptyInput | src/components/front/AgeGate.jsx:39 | a date counts as missing exactly when one of its three inputs is the empty string |
| AgeGate.MountStep | src/components/front/AgeGate.jsx:22-32 | on mount the gate and the App both take the resolved stored language, and the App becomes verified exactly when it was already or the store holds "true" |
| AgeGate.SubmitStep | src/components/front/AgeGate.jsx:35-56 | an empty field sets "Please enter your birth date." and changes nothing else; an adult passes the gate's language up and verifies, leaving the gate untouched; otherwise "You are not allowed." with all three fields cleared and the App untouched |
| AgeGate.EditStep | src/components/front/AgeGate.jsx:94-119 | editing one date field replaces that field only |
| AgeGate.Component.constructor | src/components/front/AgeGate.jsx:12-18 | the gate starts with empty fields, English and no error |
| AgeGate.Component.Mount | src/components/front/AgeGate.jsx:22-32 | the mount effect follows `MountStep` and does not write the store |
| AgeGate.Component.Submit | src/components/front/AgeGate.jsx:35-56 | `handleSubmit` follows `SubmitStep` and does not write the store |
| AgeGate.Component.Edit | src/components/front/AgeGate.jsx:94-119 | an input's onChange follows `EditStep` |
| AgeGate.Component.ChooseLanguage | src/components/front/AgeGate.jsx:74-82 | the dropdown changes the gate's own language only, not the App's or the store's |
| LangSwitch.LanguageOf | src/components/partials/LangSwitch.jsx:23-48 | the buttons pass only "english" or "sinhala", and the language each button passes is the one that highlights exactly that button |
| LangSwitch.Highlighted | src/components/partials/LangSwitch.jsx:25-45 | the English button is highlighted exactly when the language is "english", the Sinhala one exactly when it is "sinhala", never both |
| LangSwitch.SwitchStep | src/components/partials/LangSwitch.jsx:11-14 | `switchTo(l)` sets the App's language to `l`, keeps its verification, stores `l` under "language" and leaves every other key as it was |
| LangSwitch.SwitchIdempotent | src/components/partials/LangSwitch.jsx:11-14 | switching twice to the same language equals switching once |
| LangSwitch.SwitchSurvivesReload | src/components/partials/LangSwitch.jsx:13 | a reload after `switchTo(l)` restores `l` (or "english" for the empty string) and the previously stored verification flag |
| LangSwitch.SwitchTo | src/components/partials/LangSwitch.jsx:11-14 | `switchTo` follows `SwitchStep` on the App and the store |
| LangSwitch.Click | src/components/partials/LangSwitch.jsx:23-48 | a click stores "english" or "sinhala" |
| Page.Open | src/App.jsx:6-24 | loading the page verifies exactly when the store holds "true" and puts both App and gate in the resolved stored language |
| Page.Step | src/App.jsx:19-24 | no event unverifies the App, and the only event that verifies an unverified App is a confirm whose date is judged adult; only a language-switch click changes the store, and only under "language" |
| Page.VerifiedIsMonotone | src/App.jsx:13-21 | once verified, the App stays verified through any sequence of events |
| Page.OnlyLanguageIsWritten | src/components/partials/LangSwitch.jsx:13 | through any sequence of events every key other than "language" keeps its stored value |
| Page.StoredLanguageComesFromButtons | src/components/partials/LangSwitch.jsx:24-40 | the stored language stays "english", "sinhala" or what the store started with |
| Page.ReopenForgetsVerification | src/components/front/AgeGate.jsx:49-51 | a reload after any session is verified exactly when the store was verified at the start |
| Page.ReopenAfterSwitch | src/components/partials/LangSwitch.jsx:13 | a reload after a switch opens the App and the gate in the switched-to language |
| Page.EffectOrderIrrelevant | src/components/front/AgeGate.jsx:22-32 | the gate's mount effect after the App's start-up effect leaves the App state the start-up effect set |
| Page.ScenarioUnderage | src/components/front/AgeGate.jsx:52-54 | born 2010, in 2024, empty store: refused, fields cleared, store still empty |
| Page.ScenarioAdult | src/components/front/AgeGate.jsx:49-51 | born 2000, in 2024, empty store: verified in English, store still empty |
| Page.ScenarioSwitchThenAdult | src/components/front/AgeGate.jsx:50 | a switch to Sinhala before passing the gate: the App ends verified in English, the store holds Sinhala |
| Page.ScenarioReturningVisitor | src/components/front/AgeGate.jsx:29-31 | a store holding "true" and "sinhala" opens Home in Sinhala |
| Page.OpenPage | src/App.jsx:6-24 | constructing both components and running their effects gives `Open` of the store |

## Left out

- src/components/sections/home-hero.jsx is not part of this model: its only logic is an asynchronous import of a per-language data bundle, followed by rendering.
- Date parsing and time zones: the year the browser parses from "year-month-day" is a parameter `birthYear: Option<int>` (None for an unparseable date), and the clock's year is a parameter `currentYear`.
- The browser API and durability of `localStorage`: the store is an in-memory map, and a reload is `Page.Open` on the same map.
- React's effect scheduling and re-rendering: every handler and effect is one atomic step. `Page.Open` runs the gate's mount effect before the App's start-up effect, as React does for a child, and `Page.EffectOrderIrrelevant` shows the other order gives the same App state.
- The gate's state after it unmounts: `Page.Session` keeps the last gate state once the App is verified, and gate events are ignored from then on, since the gate is no longer rendered.
- All markup, styling, images, the video and the social links.
- The sanitising of the three `type="number"` date inputs (src/components/front/AgeGate.jsx:91, 102, 113): the browser reports a non-numeric entry as `""`. `AgeGate.EditStep`, `AgeGate.Component.Edit` and `Page.EditField` accept any string, which over-approximates what the browser hands over.
