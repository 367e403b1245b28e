/** The display rules of the client: how a response and the state cells
    become what the operator sees. Everything here is a pure function. */
module Presenter {
  import opened Wrappers
  import opened Api

  /** The one warning code the client translates. */
  const PENICILLIN_ALERT := "alert_penicillin"
  /** The sentence shown in its place. */
  const PENICILLIN_SENTENCE :=
    "Patient has a reported Penicillin allergy. Suggested treatment (Amoxicillin) is strictly contraindicated."
  /** The headline of the branch taken when there is no diagnosis. */
  const NO_MATCH_HEADLINE := "No matching diagnosis found."

  /** The display text of one warning code. */
  function AlertText(code: string): string
  {
    if code == PENICILLIN_ALERT then PENICILLIN_SENTENCE else code
  }

  /** `warnings.map(...)`: one display line per code, in order. */
  function AlertTexts(codes: seq<string>): (texts: seq<string>)
    ensures |texts| == |codes|
    ensures forall i :: 0 <= i < |codes| && codes[i] == PENICILLIN_ALERT ==> texts[i] == PENICILLIN_SENTENCE
    ensures forall i :: 0 <= i < |codes| && codes[i] != PENICILLIN_ALERT ==> texts[i] == codes[i]
  {
    if codes == [] then [] else [AlertText(codes[0])] + AlertTexts(codes[1..])
  }

  /** The raw penicillin code never reaches the screen. */
  lemma PenicillinCodeNeverShown(codes: seq<string>)
    ensures PENICILLIN_ALERT !in AlertTexts(codes)
  {
    assert PENICILLIN_SENTENCE != PENICILLIN_ALERT by {
      assert |PENICILLIN_SENTENCE| != |PENICILLIN_ALERT|;
    }
    var texts := AlertTexts(codes);
    forall i | 0 <= i < |texts| ensures texts[i] != PENICILLIN_ALERT {
      if codes[i] == PENICILLIN_ALERT {
        assert texts[i] == PENICILLIN_SENTENCE;
      }
    }
  }

  /** `s.replace(/_/g, ' ')`: every underscore becomes a space, every other
      character stays; the length is kept, no underscore is left, and text
      without an underscore is unchanged. */
  function ReplaceUnderscores(s: string): (r: string)
    ensures |r| == |s|
    ensures forall i :: 0 <= i < |s| && s[i] == '_' ==> r[i] == ' '
    ensures forall i :: 0 <= i < |s| && s[i] != '_' ==> r[i] == s[i]
    ensures '_' !in r
    ensures '_' !in s ==> r == s
  {
    if s == [] then []
    else [if s[0] == '_' then ' ' else s[0]] + ReplaceUnderscores(s[1..])
  }

  /** One rendered diagnosis card. */
  datatype Card = Card(title: string, rationale: string, treatment: string)

  /** The diagnoses panel: cards, or the "no match" branch. */
  datatype DiagnosesPanel = Cards(cards: seq<Card>) | NoMatch(headline: string)

  /** The results column for a response that is present. */
  datatype ResultsPanel = ResultsPanel(alerts: Option<seq<string>>, diagnoses: DiagnosesPanel)

  /** What the page shows for given state cells. */
  datatype Screen = Screen(
    submitDisabled: bool,
    busy: bool,
    errorBanner: Option<string>,
    placeholder: bool,
    results: Option<ResultsPanel>)

  /** One card per diagnosis, in order; identifiers formatted, the
      explanation passed through. */
  function CardsOf(ds: seq<Diagnosis>): (cards: seq<Card>)
    ensures |cards| == |ds|
    ensures forall i :: 0 <= i < |ds| ==>
      cards[i] == Card(ReplaceUnderscores(ds[i].disease), ds[i].explanation, ReplaceUnderscores(ds[i].treatment))
  {
    if ds == [] then []
    else
      [Card(ReplaceUnderscores(ds[0].disease), ds[0].explanation, ReplaceUnderscores(ds[0].treatment))]
      + CardsOf(ds[1..])
  }

  /** The results column: the alerts panel exists exactly when there are
      warnings, and an empty diagnoses list selects the "no match" branch,
      which is a result and not an error. */
  function PresentResult(r: ApiResponse): (panel: ResultsPanel)
    ensures panel.alerts.Some? <==> |r.warnings| > 0
    ensures panel.alerts.Some? ==> panel.alerts.value == AlertTexts(r.warnings)
    ensures panel.diagnoses.NoMatch? <==> |r.diagnoses| == 0
    ensures panel.diagnoses.NoMatch? ==> panel.diagnoses.headline == NO_MATCH_HEADLINE
    ensures panel.diagnoses.Cards? ==> panel.diagnoses.cards == CardsOf(r.diagnoses)
  {
    ResultsPanel(
      if |r.warnings| > 0 then Some(AlertTexts(r.warnings)) else None,
      if |r.diagnoses| > 0 then Cards(CardsOf(r.diagnoses)) else NoMatch(NO_MATCH_HEADLINE))
  }

  /** The whole page for the state cells: the submit button is disabled
      exactly while loading or with no symptom selected; the error banner
      shows a non-empty error; the idle placeholder shows exactly when there
      is no result and nothing is loading; the results column shows exactly
      when there is a result, so the two never show together. */
  function Render(symptoms: seq<string>, isLoading: bool, result: Option<ApiResponse>, error: Option<string>): (s: Screen)
    ensures s.submitDisabled <==> isLoading || |symptoms| == 0
    ensures s.busy == isLoading
    ensures s.errorBanner.Some? <==> error.Some? && error.value != ""
    ensures s.errorBanner.Some? ==> s.errorBanner == error
    ensures s.placeholder <==> result.None? && !isLoading
    ensures s.results.Some? <==> result.Some?
    ensures result.Some? ==> s.results == Some(PresentResult(result.value))
    ensures !(s.placeholder && s.results.Some?)
  {
    Screen(
      isLoading || |symptoms| == 0,
      isLoading,
      if error.Some? && error.value != "" then error else None,
      result.None? && !isLoading,
      if result.Some? then Some(PresentResult(result.value)) else None)
  }

  /** No underscore is left in any title or treatment shown on a card. */
  lemma NoUnderscoreOnCards(r: ApiResponse, i: nat)
    requires i < |r.diagnoses|
    ensures PresentResult(r).diagnoses.Cards?
    ensures '_' !in PresentResult(r).diagnoses.cards[i].title
    ensures '_' !in PresentResult(r).diagnoses.cards[i].treatment
    ensures |PresentResult(r).diagnoses.cards[i].title| == |r.diagnoses[i].disease|
  {
  }

  /** The scenario of a single influenza diagnosis without warnings: one
      card "influenza" / "rest" and no alerts panel. */
  lemma InfluenzaScenario()
    ensures PresentResult(ApiResponse("ok", [Diagnosis("influenza", "rest", "fever and cough present")], []))
         == ResultsPanel(None, Cards([Card("influenza", "fever and cough present", "rest")]))
  {
    var r := ApiResponse("ok", [Diagnosis("influenza", "rest", "fever and cough present")], []);
    assert '_' !in "influenza" && '_' !in "rest";
    assert CardsOf(r.diagnoses) == [Card("influenza", "fever and cough present", "rest")];
  }
}
