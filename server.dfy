/** The consultation endpoint of the service: reset the patient fact store
    of the inference engine, assert one fact per symptom and per allergy,
    then assemble the response from the engine's answers. The engine's
    rules are not modelled; its three queries are functions of the patient
    facts, given as an `Engine` value. */
module Server {
  import opened Wrappers
  import Api

  /** A patient fact: `has_symptom(S)` or `patient_info(Attribute, Value)`. */
  datatype Fact = HasSymptom(symptom: string) | PatientInfo(attribute: string, value: string)

  /** One solution of `diagnose(Disease, Treatment)`. */
  datatype Solution = Solution(disease: string, treatment: string)

  /** The engine's queries, as functions of the patient facts asserted:
      `diagnose(Disease, Treatment)`, `explain_diagnosis(Disease, Reason)`
      (the reasons for one disease) and `safety_alert(Warning)`. */
  datatype Engine = Engine(
    diagnose: seq<Fact> -> seq<Solution>,
    explain: seq<Fact> -> string -> seq<string>,
    safetyAlerts: seq<Fact> -> seq<string>)

  /** The `allergies` field as it arrives in the JSON body. */
  datatype AllergiesField = Omitted | Null | Given(list: seq<string>)

  /** The validated request: `allergies` is `Optional[List[str]]`. */
  datatype ConsultationRequest = ConsultationRequest(symptoms: seq<string>, allergies: Option<seq<string>>)

  /** The echo of the request in the response. */
  datatype PatientData = PatientData(symptoms: seq<string>, allergies: Option<seq<string>>)

  /** The fixed-shape response record. */
  datatype ConsultResponse = ConsultResponse(
    status: string,
    patientData: PatientData,
    diagnoses: seq<Api.Diagnosis>,
    warnings: seq<string>)

  /** Request validation for the `allergies` field: an omitted field takes
      the default empty list, an explicit null stays null, a list is kept. */
  function MakeRequest(symptoms: seq<string>, allergies: AllergiesField): (req: ConsultationRequest)
    ensures req.symptoms == symptoms
    ensures allergies.Omitted? ==> req.allergies == Some([])
    ensures allergies.Null? ==> req.allergies == None
    ensures allergies.Given? ==> req.allergies == Some(allergies.list)
  {
    match allergies
    case Omitted => ConsultationRequest(symptoms, Some([]))
    case Null => ConsultationRequest(symptoms, None)
    case Given(list) => ConsultationRequest(symptoms, Some(list))
  }

  /** One `has_symptom` fact per symptom, in order. */
  function SymptomFacts(symptoms: seq<string>): (facts: seq<Fact>)
    ensures |facts| == |symptoms|
    ensures forall i :: 0 <= i < |symptoms| ==> facts[i] == HasSymptom(symptoms[i])
  {
    if symptoms == [] then [] else SymptomFacts(symptoms[..|symptoms| - 1]) + [HasSymptom(symptoms[|symptoms| - 1])]
  }

  /** One `patient_info(allergy, A)` fact per allergy, in order. */
  function AllergyFacts(allergies: seq<string>): (facts: seq<Fact>)
    ensures |facts| == |allergies|
    ensures forall i :: 0 <= i < |allergies| ==> facts[i] == PatientInfo("allergy", allergies[i])
  {
    if allergies == [] then [] else AllergyFacts(allergies[..|allergies| - 1]) + [PatientInfo("allergy", allergies[|allergies| - 1])]
  }

  /** The patient facts a consultation leaves in the store: the symptom
      facts, then allergy facts only when the allergy list is non-empty. */
  function PatientFacts(req: ConsultationRequest): (facts: seq<Fact>)
    ensures |facts| >= |req.symptoms|
    ensures facts[..|req.symptoms|] == SymptomFacts(req.symptoms)
    ensures (req.allergies == None || req.allergies == Some([])) ==> |facts| == |req.symptoms|
    ensures req.allergies.Some? ==> facts[|req.symptoms|..] == AllergyFacts(req.allergies.value)
  {
    if req.allergies.Some? && |req.allergies.value| > 0
    then SymptomFacts(req.symptoms) + AllergyFacts(req.allergies.value)
    else SymptomFacts(req.symptoms)
  }

  /** The engine's patient fact store. */
  class FactStore {
    var facts: seq<Fact>

    constructor ()
      ensures facts == []
    {
      facts := [];
    }

    /** `clear_patient_data`: drops every patient fact. */
    method ClearPatientData()
      modifies this
      ensures facts == []
    {
      facts := [];
    }

    /** `assertz(F)`: adds a fact after all others. */
    method Assertz(f: Fact)
      modifies this
      ensures facts == old(facts) + [f]
    {
      facts := facts + [f];
    }
  }

  /** The position of the first solution for disease `d`, or `|sols|` when
      there is none (first-ness is `IndexOfDiseaseIsFirst`). */
  function IndexOfDisease(sols: seq<Solution>, d: string): (k: nat)
    ensures k <= |sols|
    ensures k < |sols| ==> sols[k].disease == d
  {
    if sols == [] then 0
    else if sols[0].disease == d then 0
    else 1 + IndexOfDisease(sols[1..], d)
  }

  /** No solution before `IndexOfDisease(sols, d)` is for `d`. */
  lemma {:induction false} IndexOfDiseaseIsFirst(sols: seq<Solution>, d: string, j: nat)
    requires j < |sols| && sols[j].disease == d
    ensures IndexOfDisease(sols, d) <= j
  {
    if sols[0].disease != d {
      IndexOfDiseaseIsFirst(sols[1..], d, j - 1);
    }
  }

  /** The diseases of a list of diagnoses. */
  function DiseasesOf(ds: seq<Api.Diagnosis>): set<string>
  {
    set e | e in ds :: e.disease
  }

  /** Every disease of the set comes from some entry. */
  lemma DiseasesOfMember(ds: seq<Api.Diagnosis>, d: string)
    requires d in DiseasesOf(ds)
    ensures exists j :: 0 <= j < |ds| && ds[j].disease == d
  {
    var e :| e in ds && e.disease == d;
    var j :| 0 <= j < |ds| && ds[j] == e;
  }

  /** The reason shown for a disease: the first one the lookup gives, or "". */
  function FirstReason(reasons: seq<string>): string
  {
    if |reasons| > 0 then reasons[0] else ""
  }

  /** The entry the loop builds for a solution. */
  function EntryFor(sol: Solution, explain: string -> seq<string>): Api.Diagnosis
  {
    Api.Diagnosis(sol.disease, sol.treatment, FirstReason(explain(sol.disease)))
  }

  /** `e` is the entry built from the first solution for its disease. */
  ghost predicate FromFirstSolution(e: Api.Diagnosis, sols: seq<Solution>, explain: string -> seq<string>)
  {
    var k := IndexOfDisease(sols, e.disease);
    && k < |sols|
    && e.treatment == sols[k].treatment
    && e.explanation == FirstReason(explain(e.disease))
  }

  /** The entries of `ds` appear in the order of their diseases' first
      occurrences among the solutions (strictly, so no disease twice). */
  ghost predicate InFirstSeenOrder(ds: seq<Api.Diagnosis>, sols: seq<Solution>)
  {
    forall i, j :: 0 <= i < j < |ds| ==> IndexOfDisease(sols, ds[i].disease) < IndexOfDisease(sols, ds[j].disease)
  }

  /** `ds` is the deduplicated form of the engine's solutions: no disease
      twice; every disease among the solutions present; each entry carries
      the treatment of the first solution for its disease and the first
      reason of the explanation lookup (or "" when there is none); entries
      in the order of their diseases' first occurrences. */
  ghost predicate IsDeduplication(ds: seq<Api.Diagnosis>, sols: seq<Solution>, explain: string -> seq<string>)
  {
    && (forall i, j :: 0 <= i < j < |ds| ==> ds[i].disease != ds[j].disease)
    && (forall k :: 0 <= k < |sols| ==> sols[k].disease in DiseasesOf(ds))
    && (forall i :: 0 <= i < |ds| ==> FromFirstSolution(ds[i], sols, explain))
    && InFirstSeenOrder(ds, sols)
  }

  /** Appending an entry adds exactly its disease. */
  lemma DiseasesOfAppend(ds: seq<Api.Diagnosis>, e: Api.Diagnosis)
    ensures DiseasesOf(ds + [e]) == DiseasesOf(ds) + {e.disease}
  {
    assert forall x :: x in ds + [e] <==> x in ds || x == e;
  }

  /** When every earlier solution's disease is in `seen` and the one at `i`
      is not, the solution at `i` is the first for its disease. */
  lemma FirstUnseenIsFirstOccurrence(sols: seq<Solution>, seen: set<string>, i: nat)
    requires i < |sols|
    requires forall k :: 0 <= k < i ==> sols[k].disease in seen
    requires sols[i].disease !in seen
    ensures IndexOfDisease(sols, sols[i].disease) == i
  {
    IndexOfDiseaseIsFirst(sols, sols[i].disease, i);
  }

  /** Appending the entry for the first solution of a disease not yet seen
      keeps every entry built from the first solution of its disease. */
  lemma ExtendFromFirstSolution(ds: seq<Api.Diagnosis>, sols: seq<Solution>, explain: string -> seq<string>, i: nat, entry: Api.Diagnosis)
    requires i < |sols|
    requires entry == EntryFor(sols[i], explain)
    requires IndexOfDisease(sols, sols[i].disease) == i
    requires forall a :: 0 <= a < |ds| ==> FromFirstSolution(ds[a], sols, explain)
    ensures forall a :: 0 <= a < |ds + [entry]| ==> FromFirstSolution((ds + [entry])[a], sols, explain)
  {
    var next := ds + [entry];
    forall a | 0 <= a < |next| ensures FromFirstSolution(next[a], sols, explain) {
      if a < |ds| { assert next[a] == ds[a]; }
    }
  }

  /** Appending an entry whose disease first occurs at `i`, after entries
      whose diseases all first occur before `i`, keeps first-seen order. */
  lemma ExtendFirstSeenOrder(ds: seq<Api.Diagnosis>, sols: seq<Solution>, i: nat, entry: Api.Diagnosis)
    requires IndexOfDisease(sols, entry.disease) == i
    requires forall a :: 0 <= a < |ds| ==> IndexOfDisease(sols, ds[a].disease) < i
    requires InFirstSeenOrder(ds, sols)
    ensures InFirstSeenOrder(ds + [entry], sols)
  {
    var next := ds + [entry];
    forall a, b | 0 <= a < b < |next|
      ensures IndexOfDisease(sols, next[a].disease) < IndexOfDisease(sols, next[b].disease)
    {
      assert next[a] == ds[a];
      if b < |ds| {
        assert next[b] == ds[b];
      }
    }
  }

  /** What the loop keeps after `n` solutions: every disease seen so far is
      listed, every entry comes from the first solution of its disease,
      which lies before `n`, and entries are in first-seen order. */
  ghost predicate KeepsFirstSeen(ds: seq<Api.Diagnosis>, sols: seq<Solution>, n: nat, explain: string -> seq<string>)
  {
    && (forall k :: 0 <= k < n && k < |sols| ==> sols[k].disease in DiseasesOf(ds))
    && (forall a :: 0 <= a < |ds| ==> IndexOfDisease(sols, ds[a].disease) < n)
    && (forall a :: 0 <= a < |ds| ==> FromFirstSolution(ds[a], sols, explain))
    && InFirstSeenOrder(ds, sols)
  }

  /** One more solution, skipped or appended, keeps `KeepsFirstSeen`. */
  lemma StepKeepsFirstSeen(ds: seq<Api.Diagnosis>, sols: seq<Solution>, i: nat, explain: string -> seq<string>)
    requires i < |sols|
    requires KeepsFirstSeen(ds, sols, i, explain)
    ensures sols[i].disease in DiseasesOf(ds) ==> KeepsFirstSeen(ds, sols, i + 1, explain)
    ensures sols[i].disease !in DiseasesOf(ds) ==> KeepsFirstSeen(ds + [EntryFor(sols[i], explain)], sols, i + 1, explain)
  {
    if sols[i].disease !in DiseasesOf(ds) {
      var entry := EntryFor(sols[i], explain);
      FirstUnseenIsFirstOccurrence(sols, DiseasesOf(ds), i);
      ExtendFromFirstSolution(ds, sols, explain, i, entry);
      ExtendFirstSeenOrder(ds, sols, i, entry);
      DiseasesOfAppend(ds, entry);
      ExtendBelow(ds, sols, i, entry);
    }
  }

  /** Entries whose diseases first occur before `i`, plus one first
      occurring at `i`, all first occur before `i + 1`. */
  lemma ExtendBelow(ds: seq<Api.Diagnosis>, sols: seq<Solution>, i: nat, entry: Api.Diagnosis)
    requires IndexOfDisease(sols, entry.disease) == i
    requires forall a :: 0 <= a < |ds| ==> IndexOfDisease(sols, ds[a].disease) < i
    ensures forall a :: 0 <= a < |ds + [entry]| ==> IndexOfDisease(sols, (ds + [entry])[a].disease) < i + 1
  {
    forall a | 0 <= a < |ds + [entry]| ensures IndexOfDisease(sols, (ds + [entry])[a].disease) < i + 1 {
      if a < |ds| { assert (ds + [entry])[a] == ds[a]; }
    }
  }

  /** Once every solution has been seen, `KeepsFirstSeen` is a
      deduplication. */
  lemma FirstSeenIsDeduplication(ds: seq<Api.Diagnosis>, sols: seq<Solution>, explain: string -> seq<string>)
    requires KeepsFirstSeen(ds, sols, |sols|, explain)
    ensures IsDeduplication(ds, sols, explain)
  {
    forall i, j | 0 <= i < j < |ds| ensures ds[i].disease != ds[j].disease {
      assert IndexOfDisease(sols, ds[i].disease) < IndexOfDisease(sols, ds[j].disease);
    }
  }

  /** The loop over `diagnose` solutions with the `seen` set: first
      occurrence wins and first-seen order is kept. */
  method DeduplicateDiagnoses(sols: seq<Solution>, explain: string -> seq<string>) returns (ds: seq<Api.Diagnosis>)
    ensures IsDeduplication(ds, sols, explain)
  {
    ds := [];
    var seen: set<string> := {};
    var i := 0;
    while i < |sols|
      invariant 0 <= i <= |sols|
      invariant seen == DiseasesOf(ds)
      invariant KeepsFirstSeen(ds, sols, i, explain)
    {
      var disease := sols[i].disease;
      StepKeepsFirstSeen(ds, sols, i, explain);
      if disease !in seen {
        seen := seen + {disease};
        var explanations := explain(disease);
        var reason := if |explanations| > 0 then explanations[0] else "";
        var entry := Api.Diagnosis(disease, sols[i].treatment, reason);
        assert entry == EntryFor(sols[i], explain);
        DiseasesOfAppend(ds, entry);
        ds := ds + [entry];
      }
      i := i + 1;
    }
    FirstSeenIsDeduplication(ds, sols, explain);
  }

  /** Stated without a precondition so that `IncreasingUnique` can use it
      in its empty-list case without indexing a sequence that the facts in
      scope already rule out (which would count as reasoning from
      contradictory assumptions). */
  lemma HeadIsMember(s: seq<nat>)
    ensures s != [] ==> s[0] in s
  {
  }

  /** Strictly increasing. */
  predicate Increasing(s: seq<nat>)
  {
    forall i, j :: 0 <= i < j < |s| ==> s[i] < s[j]
  }

  /** The head of an increasing sequence is its least element, and its tail
      is increasing and holds exactly the other elements. */
  lemma IncreasingSplit(s: seq<nat>)
    requires Increasing(s) && s != []
    ensures Increasing(s[1..])
    ensures forall x :: x in s ==> s[0] <= x
    ensures forall x :: x in s[1..] <==> x in s && x != s[0]
  {
    forall x | x in s ensures s[0] <= x {
      var i :| 0 <= i < |s| && s[i] == x;
    }
    forall x ensures x in s[1..] <==> x in s && x != s[0] {
      if x in s && x != s[0] {
        var i :| 0 <= i < |s| && s[i] == x;
        assert s[1..][i - 1] == x;
      }
    }
  }

  /** A strictly increasing sequence is determined by its elements. */
  lemma {:induction false} IncreasingUnique(a: seq<nat>, b: seq<nat>)
    requires Increasing(a) && Increasing(b)
    requires forall x :: x in a <==> x in b
    ensures a == b
  {
    HeadIsMember(a);
    HeadIsMember(b);
    if a != [] {
      IncreasingSplit(a);
      IncreasingSplit(b);
      assert a[0] == b[0];
      IncreasingUnique(a[1..], b[1..]);
      assert a == [a[0]] + a[1..] && b == [b[0]] + b[1..];
    }
  }

  /** The first-occurrence positions of the entries' diseases. */
  function FirstPositions(ds: seq<Api.Diagnosis>, sols: seq<Solution>): (ks: seq<nat>)
    ensures |ks| == |ds|
    ensures forall i :: 0 <= i < |ds| ==> ks[i] == IndexOfDisease(sols, ds[i].disease)
  {
    if ds == [] then [] else [IndexOfDisease(sols, ds[0].disease)] + FirstPositions(ds[1..], sols)
  }

  /** The deduplication is unique: two lists that both satisfy it are the
      same list, so its clauses leave no freedom in the result. */
  lemma DeduplicationUnique(ds1: seq<Api.Diagnosis>, ds2: seq<Api.Diagnosis>, sols: seq<Solution>, explain: string -> seq<string>)
    requires IsDeduplication(ds1, sols, explain)
    requires IsDeduplication(ds2, sols, explain)
    ensures ds1 == ds2
  {
    var ks1, ks2 := FirstPositions(ds1, sols), FirstPositions(ds2, sols);
    forall x ensures x in ks1 ==> x in ks2 {
      if x in ks1 {
        var i :| 0 <= i < |ks1| && ks1[i] == x;
        assert FromFirstSolution(ds1[i], sols, explain);
        assert sols[x].disease == ds1[i].disease;
        assert ds1[i].disease in DiseasesOf(ds2);
        DiseasesOfMember(ds2, ds1[i].disease);
        var j :| 0 <= j < |ds2| && ds2[j].disease == ds1[i].disease;
        assert ks2[j] == x;
      }
    }
    forall x ensures x in ks2 ==> x in ks1 {
      if x in ks2 {
        var j :| 0 <= j < |ks2| && ks2[j] == x;
        assert FromFirstSolution(ds2[j], sols, explain);
        assert sols[x].disease == ds2[j].disease;
        assert ds2[j].disease in DiseasesOf(ds1);
        DiseasesOfMember(ds1, ds2[j].disease);
        var i :| 0 <= i < |ds1| && ds1[i].disease == ds2[j].disease;
        assert ks1[i] == x;
      }
    }
    assert Increasing(ks1) by {
      assert InFirstSeenOrder(ds1, sols);
    }
    assert Increasing(ks2) by {
      assert InFirstSeenOrder(ds2, sols);
    }
    IncreasingUnique(ks1, ks2);
    forall i | 0 <= i < |ds1| ensures ds1[i] == ds2[i] {
      assert FromFirstSolution(ds1[i], sols, explain) && FromFirstSolution(ds2[i], sols, explain);
      assert ds1[i].disease == sols[ks1[i]].disease == ds2[i].disease;
    }
  }

  /** `list(set(warnings))`: the distinct warnings, each once, in an order
      the model leaves open. */
  method DistinctWarnings(alerts: seq<string>) returns (ws: seq<string>)
    ensures NoDuplicates(ws)
    ensures forall w :: w in ws <==> w in alerts
  {
    var pending := set w | w in alerts;
    ws := [];
    while pending != {}
      invariant NoDuplicates(ws)
      invariant forall w :: w in ws ==> w !in pending
      invariant forall w :: w in alerts <==> w in ws || w in pending
      decreases |pending|
    {
      var w :| w in pending;
      ws := ws + [w];
      pending := pending - {w};
    }
  }

  /** `consult_patient`: the store ends holding exactly this request's
      patient facts (nothing from an earlier consultation); the engine is
      queried on those facts; the response has status "success", echoes
      the request, and carries the deduplicated diagnoses and warnings. */
  method ConsultPatient(store: FactStore, engine: Engine, req: ConsultationRequest) returns (resp: ConsultResponse)
    modifies store
    ensures store.facts == PatientFacts(req)
    ensures resp.status == "success"
    ensures resp.patientData == PatientData(req.symptoms, req.allergies)
    ensures IsDeduplication(resp.diagnoses, engine.diagnose(store.facts), engine.explain(store.facts))
    ensures NoDuplicates(resp.warnings)
    ensures forall w :: w in resp.warnings <==> w in engine.safetyAlerts(store.facts)
  {
    store.ClearPatientData();
    var i := 0;
    while i < |req.symptoms|
      invariant 0 <= i <= |req.symptoms|
      invariant store.facts == SymptomFacts(req.symptoms[..i])
    {
      assert req.symptoms[..i + 1][..i] == req.symptoms[..i];
      store.Assertz(HasSymptom(req.symptoms[i]));
      i := i + 1;
    }
    assert req.symptoms[..i] == req.symptoms;
    if req.allergies.Some? && |req.allergies.value| > 0 {
      var allergies := req.allergies.value;
      var j := 0;
      while j < |allergies|
        invariant 0 <= j <= |allergies|
        invariant store.facts == SymptomFacts(req.symptoms) + AllergyFacts(allergies[..j])
      {
        assert allergies[..j + 1][..j] == allergies[..j];
        store.Assertz(PatientInfo("allergy", allergies[j]));
        j := j + 1;
      }
      assert allergies[..j] == allergies;
    }
    var facts := store.facts;
    var diagnoses := DeduplicateDiagnoses(engine.diagnose(facts), engine.explain(facts));
    var warnings := DistinctWarnings(engine.safetyAlerts(facts));
    resp := ConsultResponse("success", PatientData(req.symptoms, req.allergies), diagnoses, warnings);
  }
}
