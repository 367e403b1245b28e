# Doctor Droid consultation core, modelled in Dafny

Doctor Droid is a symptom-intake system with two parts. A React page lets
an operator pick observed symptoms and known allergies, posts them to a
FastAPI service, and shows the diagnoses and safety warnings it gets back.
The service resets a Prolog engine's patient facts, asserts the new
symptoms and allergies, and assembles a fixed-shape response from the
engine's answers.

This project models the logic of both sides:

- `wrappers.dfy` (`Wrappers`): `Option` and the `NoDuplicates` predicate.
- `api.dfy` (`Api`): the wire types `Diagnosis`, `ApiResponse` and `RequestBody`.
- `selection.dfy` (`Selection`): the toggle behind `toggleSymptom` and `toggleAllergy`.
  It is a pure function of the previous list.
- `presenter.dfy` (`Presenter`): the display rules as pure functions:
  - the `alert_penicillin` substitution;
  - underscore-to-space formatting;
  - alerts panel, "no match" branch, idle placeholder, submit-disabled.
- `consultation.dfy` (`Consultation`): class `App`, which holds the page's five
  state cells (`selectedSymptoms`, `selectedAllergies`, `isLoading`, `result`, `error`).
  - Its methods are the handlers.
  - `handleConsult` is split at its first `await` (the `fetch`) into `BeginConsult`
    (up to the request) and `Settle` (everything after `fetch` resolves, including
    the second `await` on `response.json()`), and `HandleConsult` runs both.
    No state cell is written between the two `await`s.
  - `Scenarios` walks through three client scenarios with static assertions: an
    empty submit, a fever-and-cough consultation with a penicillin allergy, and a
    rejected request.
  - The result of `fetch` is a `FetchOutcome` parameter:
    - `Unreachable`: `fetch` rejects;
    - `Response(ok, body)`: an HTTP response; `body` is `None` when `response.json()` fails.
- `server.dfy` (`Server`): `consult_patient`.
  - Class `FactStore` is the engine's patient fact store.
  - The engine's three queries (`diagnose`, `explain_diagnosis`, `safety_alert`)
    are the fields of an `Engine` value: functions from the asserted patient facts
    to their solutions.
  - `DeduplicateDiagnoses` is the loop with the `seen` set.
  - `DistinctWarnings` is `list(set(...))`.

Behaviour of the code worth noting:

- `handleConsult` on its own: with no symptom selected it sets only `error`, to
  "Please select at least one symptom for consultation.". `isLoading` and any
  earlier `result` are kept, so a validation error could stand beside an earlier
  result. It has no guard against a second call while a request is in flight.
- On the page, its only caller is the submit button (`doctor-droid-ui/src/App.tsx:197`),
  which is disabled exactly when `isLoading` or no symptom is selected (line 198).
  So the validation branch is defensive and never runs from the page, and the
  disabled button is the guard against a second request. `Presenter.Render`
  states that predicate as `submitDisabled`, and `HandleConsult` states that it
  sends no request only when the button was disabled.

## Model

| member | source | states |
|---|---|---|
| `Selection.RemoveAll` | doctor-droid-ui/src/App.tsx:63 | the filtered list has no occurrence of the id, and every other id occurs exactly as often as before |
| `Selection.RemoveAllAppend` | doctor-droid-ui/src/App.tsx:63 | filtering distributes over concatenation, so relative order is kept |
| `Selection.RemoveAllAbsent` | doctor-droid-ui/src/App.tsx:63 | filtering out an id that does not occur leaves the list unchanged |
| `Selection.RemoveAllKeepsNoDuplicates` | doctor-droid-ui/src/App.tsx:63 | filtering a duplicate-free list gives a duplicate-free list |
| `Selection.Toggle` | doctor-droid-ui/src/App.tsx:60-74 | the id is in the result iff it was not in the list. An absent id is appended at the end. A present id is removed with every occurrence. Removing the id from both lists gives the same sequence, so other ids and their order are unchanged. Duplicate-freedom is kept |
| `Selection.ToggleTwiceAbsent` | doctor-droid-ui/src/App.tsx:61-64 | toggling an absent id twice restores the list exactly |
| `Selection.ToggleTwicePresent` | doctor-droid-ui/src/App.tsx:61-64 | toggling a present id twice restores the set of ids, with that id once at the end |
| `Selection.ToggleTwiceMovesPresentId` | doctor-droid-ui/src/App.tsx:61-64 | concrete case: a double toggle of a present id reorders the list (`[fever, cough]` becomes `[cough, fever]`) |
| `Presenter.AlertTexts` | doctor-droid-ui/src/App.tsx:246-251 | one display line per warning code, same length and order. `alert_penicillin` becomes the fixed contraindication sentence; every other code passes through verbatim |
| `Presenter.PenicillinCodeNeverShown` | doctor-droid-ui/src/App.tsx:249-251 | the raw `alert_penicillin` code never appears among the displayed lines |
| `Presenter.ReplaceUnderscores` | doctor-droid-ui/src/App.tsx:273 | each `_` becomes a space and every other character stays. Length is kept and no `_` remains. Text without `_` is unchanged. The same rule formats treatments at line 292 |
| `Presenter.CardsOf` | doctor-droid-ui/src/App.tsx:269-297 | one card per diagnosis, in order. Disease and treatment are formatted; the explanation passes through |
| `Presenter.PresentResult` | doctor-droid-ui/src/App.tsx:238-304 | the alerts panel exists iff `warnings.length > 0`. An empty diagnoses list selects the "No matching diagnosis found." branch; any other list gives the cards |
| `Presenter.Render` | doctor-droid-ui/src/App.tsx:196-234 | submit is disabled iff `isLoading` or no symptom is selected. The error banner shows a non-empty error. The idle placeholder shows iff there is no result and nothing is loading. Results show iff there is a result, so placeholder and results never show together |
| `Presenter.NoUnderscoreOnCards` | doctor-droid-ui/src/App.tsx:272-293 | a response with diagnoses shows cards whose titles and treatments contain no `_`, and titles keep the identifier's length |
| `Presenter.InfluenzaScenario` | doctor-droid-ui/src/App.tsx:238-297 | one influenza/rest diagnosis with no warnings shows one card "influenza"/"rest" and no alerts panel |
| `Consultation.Received` | doctor-droid-ui/src/App.tsx:98-103 | data is stored only when the response is ok and its body parsed; every failure gives nothing |
| `Consultation.App.constructor` | doctor-droid-ui/src/App.tsx:53-58 | empty selections, not loading, no result, no error; the invariant holds |
| `Consultation.App.ToggleSymptom` | doctor-droid-ui/src/App.tsx:60-66 | the symptom list becomes its toggle and no other cell changes |
| `Consultation.App.ToggleAllergy` | doctor-droid-ui/src/App.tsx:68-74 | the allergy list becomes its toggle and no other cell changes |
| `Consultation.App.BeginConsult` | doctor-droid-ui/src/App.tsx:76-96 | with no symptom, only `error` is set to the validation message and no request is made. Otherwise loading starts, result and error are cleared, and the request body is the two selection lists |
| `Consultation.App.Settle` | doctor-droid-ui/src/App.tsx:98-108 | a usable response becomes the result. Any failure sets the one fixed connection message. Loading ends on every path |
| `Consultation.App.HandleConsult` | doctor-droid-ui/src/App.tsx:76-109 | no path changes the selections. An enabled submit button always sends, and no request is sent only when the button was disabled. With no symptom, only the validation error is set. After a send, either the result is the data and there is no error, or there is no result and the connection message is set; loading is off in both |
| `Server.MakeRequest` | main.py:24-26 | an omitted `allergies` becomes the empty list, an explicit null stays null, and a given list is kept |
| `Server.SymptomFacts` | main.py:38-40 | one `has_symptom` fact per symptom, in order |
| `Server.AllergyFacts` | main.py:43-45 | one `patient_info(allergy, A)` fact per allergy, in order |
| `Server.PatientFacts` | main.py:34-45 | the symptom facts come first. Allergy facts follow only for a non-empty allergy list, and there are no others |
| `Server.FactStore.ClearPatientData` | main.py:35 | the store holds no patient fact afterwards |
| `Server.FactStore.Assertz` | main.py:40 | the fact is added after all others |
| `Server.IndexOfDisease` | main.py:54-57 | the position returned holds a solution for the disease, or is the length when there is none |
| `Server.IndexOfDiseaseIsFirst` | main.py:54-57 | no solution for the disease comes before that position, so it is the first occurrence |
| `Server.StepKeepsFirstSeen` | main.py:54-67 | one loop step, skipping a seen disease or appending a new one, keeps the loop's invariant |
| `Server.FirstSeenIsDeduplication` | main.py:52-67 | once all solutions are processed, the invariant gives the deduplication properties |
| `Server.DeduplicateDiagnoses` | main.py:52-67 | no disease twice, and every disease among the solutions is present. Each entry has the treatment of the first solution for its disease. Its explanation is the lookup's first reason, or "" when the lookup is empty. Entries follow first-occurrence order |
| `Server.DeduplicationUnique` | main.py:52-67 | those properties fix the list completely: two lists that satisfy them are equal |
| `Server.IncreasingUnique` | main.py:54-58 | helper for uniqueness: a strictly increasing list of first positions is determined by its elements |
| `Server.DistinctWarnings` | main.py:70-71 | the warnings are duplicate-free and hold exactly the distinct alert values |
| `Server.ConsultPatient` | main.py:28-81 | the store ends holding exactly this request's patient facts, and the engine is queried on them. The status is "success" and the request's symptoms and allergies are echoed. Diagnoses and warnings are deduplicated as above |

## Left out

- JSX layout, CSS classes, icons, `capitalize` styling, `key={idx}`, the `{n} selected` counter and the checkbox `checked` flags: presentation only.
- The network: `fetch`, headers, the URL and `response.json()` are an abstract `FetchOutcome`. A body that parses is assumed to have the `ApiResponse` shape. The page stores unvalidated JSON as it comes, so a body of JSON `null` (stored as no result and no error) is not modelled.
- React's asynchronous scheduling, and overlapping requests from a double submit. That is concurrency. `BeginConsult` and `Settle` are separate so that toggles between them can be modelled.
- The static catalogs of symptoms and allergies: configuration, not logic.
- FastAPI and CORS setup, the root endpoint, and pydantic's rejection of a malformed body: framework behaviour.
- The Prolog engine's rules (`diagnose`, `explain_diagnosis`, `safety_alert`, `clear_patient_data`). The rule file is not part of this model.
  - Their answers are functions of the patient facts.
  - `clear_patient_data` is taken to remove every patient fact.
- The interpolation of ids into Prolog query text (lines 40, 45 and 60 of `main.py`) and the `res.get` lookups: string plumbing around a foreign call. The model passes ids as values.
- `Server.DistinctWarnings`: does not fix the order of the warnings, because Python's `set` iteration order is not part of the program's meaning.
