/** The wire contract between the browser client and the consultation
    service: the request body the client posts and the response shape it
    reads (the TypeScript interfaces `Diagnosis` and `ApiResponse`). */
module Api {

  /** One diagnosis: identifiers in underscore-word form plus free text. */
  datatype Diagnosis = Diagnosis(disease: string, treatment: string, explanation: string)

  /** What the client reads from a successful response. */
  datatype ApiResponse = ApiResponse(status: string, diagnoses: seq<Diagnosis>, warnings: seq<string>)

  /** The JSON body `{symptoms, allergies}` the client sends. */
  datatype RequestBody = RequestBody(symptoms: seq<string>, allergies: seq<string>)
}
