/** The consultation client: the five state cells of the `App` component
    (two selection lists, `isLoading`, `result`, `error`) and the handlers
    that update them. `handleConsult` is split at its first `await` (the `fetch`):
    `BeginConsult` runs up to the request, `Settle` covers everything after
    `fetch` resolves, including the second `await` on `response.json()`
    (no state cell is written between the two), and `HandleConsult` is the
    two in sequence. */
module Consultation {
  import opened Wrappers
  import opened Api
  import Selection
  import Presenter

  /** The message of the local check for an empty symptom list. */
  const NO_SYMPTOMS_MESSAGE := "Please select at least one symptom for consultation."
  /** The one message every failed request collapses to. */
  const CONNECTION_FAILURE_MESSAGE := "Failed to connect to the Doctor Droid API. Ensure the FastAPI backend is running."

  /** What the request produced: `fetch` rejected, or a response arrived
      with an ok flag and a body that parsed (`Some`) or did not (`None`). */
  datatype FetchOutcome = Unreachable | Response(ok: bool, body: Option<ApiResponse>)

  /** The data the `try` block stores, or `None` when it throws: a response
      counts only when it is ok and its body parsed. */
  function Received(outcome: FetchOutcome): (data: Option<ApiResponse>)
    ensures data.Some? <==> outcome.Response? && outcome.ok && outcome.body.Some?
    ensures data.Some? ==> data == outcome.body
  {
    match outcome
    case Unreachable => None
    case Response(ok, body) => if ok then body else None
  }

  class App {
    var selectedSymptoms: seq<string>
    var selectedAllergies: seq<string>
    var isLoading: bool
    var result: Option<ApiResponse>
    var error: Option<string>

    /** What every handler keeps: selections are duplicate-free, nothing
        is shown as a result while a request is in flight, and an error is
        one of the two fixed messages. */
    ghost predicate Valid()
      reads this
    {
      && NoDuplicates(selectedSymptoms)
      && NoDuplicates(selectedAllergies)
      && (isLoading ==> result.None?)
      && (error.Some? ==> error.value == NO_SYMPTOMS_MESSAGE || error.value == CONNECTION_FAILURE_MESSAGE)
    }

    /** The initial state: nothing selected, idle, no result, no error. */
    constructor ()
      ensures Valid()
      ensures selectedSymptoms == [] && selectedAllergies == []
      ensures !isLoading && result == None && error == None
    {
      selectedSymptoms := [];
      selectedAllergies := [];
      isLoading := false;
      result := None;
      error := None;
    }

    /** The page for the current state. */
    function View(): Presenter.Screen
      reads this
    {
      Presenter.Render(selectedSymptoms, isLoading, result, error)
    }

    /** `toggleSymptom`: toggles the symptom list and nothing else. */
    method ToggleSymptom(symptomId: string)
      requires Valid()
      modifies this
      ensures Valid()
      ensures selectedSymptoms == Selection.Toggle(old(selectedSymptoms), symptomId)
      ensures selectedAllergies == old(selectedAllergies)
      ensures isLoading == old(isLoading) && result == old(result) && error == old(error)
    {
      selectedSymptoms := Selection.Toggle(selectedSymptoms, symptomId);
    }

    /** `toggleAllergy`: toggles the allergy list and nothing else. */
    method ToggleAllergy(allergyId: string)
      requires Valid()
      modifies this
      ensures Valid()
      ensures selectedAllergies == Selection.Toggle(old(selectedAllergies), allergyId)
      ensures selectedSymptoms == old(selectedSymptoms)
      ensures isLoading == old(isLoading) && result == old(result) && error == old(error)
    {
      selectedAllergies := Selection.Toggle(selectedAllergies, allergyId);
    }

    /** The synchronous part of `handleConsult`. With no symptom selected it
        only sets the validation error and sends nothing (`isLoading` and a
        previous result stay as they were). Otherwise it enters the loading
        state with result and error cleared and returns the request body,
        a snapshot of both selection lists. */
    method BeginConsult() returns (request: Option<RequestBody>)
      requires Valid()
      modifies this
      ensures Valid()
      ensures selectedSymptoms == old(selectedSymptoms) && selectedAllergies == old(selectedAllergies)
      ensures old(|selectedSymptoms|) == 0 ==>
        && request == None
        && error == Some(NO_SYMPTOMS_MESSAGE)
        && isLoading == old(isLoading) && result == old(result)
      ensures old(|selectedSymptoms|) > 0 ==>
        && request == Some(RequestBody(old(selectedSymptoms), old(selectedAllergies)))
        && isLoading && result == None && error == None
    {
      if |selectedSymptoms| == 0 {
        error := Some(NO_SYMPTOMS_MESSAGE);
        return None;
      }
      isLoading := true;
      error := None;
      result := None;
      request := Some(RequestBody(selectedSymptoms, selectedAllergies));
    }

    /** The part of `handleConsult` after the request: a usable response
        becomes the result, any failure becomes the one fixed message, and
        loading ends either way (the `finally`). */
    method Settle(outcome: FetchOutcome)
      requires Valid()
      modifies this
      ensures Valid()
      ensures selectedSymptoms == old(selectedSymptoms) && selectedAllergies == old(selectedAllergies)
      ensures !isLoading
      ensures Received(outcome).Some? ==> result == Received(outcome) && error == old(error)
      ensures Received(outcome).None? ==> result == old(result) && error == Some(CONNECTION_FAILURE_MESSAGE)
    {
      var data := Received(outcome);
      if data.Some? {
        result := data;
      } else {
        error := Some(CONNECTION_FAILURE_MESSAGE);
      }
      isLoading := false;
    }

    /** `handleConsult` run to completion with the given request outcome.
        No path changes the selections; an enabled submit button always
        sends a request; with a request sent the state ends settled, holding
        either the response and no error, or no result and the failure
        message. */
    method HandleConsult(outcome: FetchOutcome) returns (request: Option<RequestBody>)
      requires Valid()
      modifies this
      ensures Valid()
      ensures selectedSymptoms == old(selectedSymptoms) && selectedAllergies == old(selectedAllergies)
      ensures !old(View()).submitDisabled ==> request.Some?
      ensures request.None? ==> old(View()).submitDisabled
      ensures request.Some? <==> old(|selectedSymptoms|) > 0
      ensures request == None ==>
        error == Some(NO_SYMPTOMS_MESSAGE) && isLoading == old(isLoading) && result == old(result)
      ensures request.Some? ==>
        && request.value == RequestBody(old(selectedSymptoms), old(selectedAllergies))
        && !isLoading
        && (Received(outcome).Some? ==> result == Received(outcome) && error == None)
        && (Received(outcome).None? ==> result == None && error == Some(CONNECTION_FAILURE_MESSAGE))
    {
      request := BeginConsult();
      if request.Some? {
        Settle(outcome);
      }
    }
  }

  /** Three client scenarios: an empty submit fails locally with
      the selections untouched; fever and cough with a penicillin allergy
      send exactly those ids; a rejected request ends in the generic failure
      with the selections unchanged. */
  method Scenarios()
  {
    var app := new App();
    var sent := app.HandleConsult(Unreachable);
    assert sent == None && app.error == Some(NO_SYMPTOMS_MESSAGE) && !app.isLoading;

    app.ToggleSymptom("fever");
    assert app.selectedSymptoms == ["fever"];
    assert "cough" !in app.selectedSymptoms by { assert "cough"[0] != "fever"[0]; }
    app.ToggleSymptom("cough");
    assert app.selectedSymptoms == ["fever", "cough"];
    app.ToggleAllergy("penicillin");
    assert app.selectedAllergies == ["penicillin"];
    var influenza := ApiResponse("ok", [Diagnosis("influenza", "rest", "fever and cough present")], []);
    sent := app.HandleConsult(Response(true, Some(influenza)));
    assert sent == Some(RequestBody(["fever", "cough"], ["penicillin"]));
    assert app.result == Some(influenza) && app.error == None && !app.isLoading;
    assert app.View().results == Some(Presenter.PresentResult(influenza));

    sent := app.HandleConsult(Unreachable);
    assert app.result == None && app.error == Some(CONNECTION_FAILURE_MESSAGE);
    assert app.selectedSymptoms == ["fever", "cough"] && app.selectedAllergies == ["penicillin"];
  }
}
