/** The request helpers of lib/utils/apiRoutes.ts: the authorization
    header check, the validation of the CV payload and the table from
    error messages to HTTP error responses. */
module ApiRoutes {
  import opened Wrappers
  import opened Text
  import opened CvTypes

  // ---------------------------------------------------------------------
  // Error messages thrown by the helpers

  const Unauthorized := "UNAUTHORIZED"
  const CvDataMissing := "CV_DATA_MISSING"
  const ValidationFailed := "VALIDATION_FAILED"
  const GeminiImprovementFailed := "GEMINI_IMPROVEMENT_FAILED"
  const InvalidImprovedCvStructure := "INVALID_IMPROVED_CV_STRUCTURE"

  // ---------------------------------------------------------------------
  // authenticateUser: the header check

  /** The bearer token sent on to the authentication service, or the
      `UNAUTHORIZED` error when the header is missing or empty; no client
      is created in that case. */
  function BearerToken(authorization: Option<String>): (r: Result<String, String>)
    ensures r.Err? <==> !Truthy(authorization)
    ensures r.Err? ==> r.error == Unauthorized
    ensures r.Ok? && !Contains(authorization.value, "Bearer ") ==> r.value == authorization.value
  {
    if !Truthy(authorization) then Err(Unauthorized)
    else Ok(ReplaceFirst(authorization.value, "Bearer ", ""))
  }

  /** A header "Bearer t" yields the token t. */
  lemma BearerPrefix(t: String)
    ensures BearerToken(Some("Bearer " + t)) == Ok(t)
  {
    var h := "Bearer " + t;
    assert OccursAt(h, "Bearer ", 0);
    IndexOfLeftmost(h, "Bearer ");
    assert IndexOf(h, "Bearer ") == Some(0);
    assert h[|"Bearer "|..] == t;
    assert Truthy(Some(h));
    assert ReplaceFirst(h, "Bearer ", "") == h[..0] + "" + h[|"Bearer "|..];
    assert h[..0] + "" + t == t;
  }

  // ---------------------------------------------------------------------
  // parseAndValidateCVData

  /** The JSON body: the CV may come as `cvData` or as `formData`. */
  datatype RequestBody = RequestBody(cvData: Option<CVFormData>, formData: Option<CVFormData>)

  /** `body.cvData || body.formData`, then the name and email check. */
  function ParseAndValidate(body: RequestBody): (r: Result<CVFormData, String>)
    ensures r.Err? ==> r.error == CvDataMissing || r.error == ValidationFailed
    ensures r.Err? && r.error == CvDataMissing <==> body.cvData.None? && body.formData.None?
    ensures r.Ok? ==> Truthy(r.value.personalInfo.name) && Truthy(r.value.personalInfo.email)
    ensures r.Ok? ==> r.value == if body.cvData.Some? then body.cvData.value else body.formData.value
  {
    var cv := if body.cvData.Some? then body.cvData else body.formData;
    if cv.None? then Err(CvDataMissing)
    else if !Truthy(cv.value.personalInfo.name) || !Truthy(cv.value.personalInfo.email) then Err(ValidationFailed)
    else Ok(cv.value)
  }

  /** The payload is accepted exactly when one is present and the chosen
      one, `cvData` first, has a name and an email. */
  lemma ParseAccepts(body: RequestBody)
    ensures ParseAndValidate(body).Ok? <==>
      (body.cvData.Some? && Truthy(body.cvData.value.personalInfo.name) && Truthy(body.cvData.value.personalInfo.email)) ||
      (body.cvData.None? && body.formData.Some? &&
       Truthy(body.formData.value.personalInfo.name) && Truthy(body.formData.value.personalInfo.email))
  {
  }

  // ---------------------------------------------------------------------
  // createErrorResponse

  /** What was thrown: an `Error` with its message, or any other value. */
  datatype Thrown = Error(message: String) | NonError

  /** The JSON body and the status of an error response. */
  datatype ErrorResponse = ErrorResponse(status: nat, success: bool, error: String, details: Option<String>)

  const DefaultStatus: nat := 500

  const InternalError := "Erreur interne du serveur"

  /** `createErrorResponse(error, status)`: the known messages have fixed
      statuses whatever `status` is; any other error gets `status`. */
  function CreateErrorResponse(thrown: Thrown, status: nat): (r: ErrorResponse)
    ensures !r.success
    ensures thrown == Error(Unauthorized) ==> r.status == 401
    ensures thrown == Error(CvDataMissing) ==> r.status == 400 && r.error == "Données CV requises"
    ensures thrown == Error(ValidationFailed) ==> r.status == 400 && r.error == "Nom et email requis"
    ensures thrown == Error(GeminiImprovementFailed) || thrown == Error(InvalidImprovedCvStructure) ==> r.status == 500
    ensures thrown.Error? && !IsKnownMessage(thrown.message) ==>
      r.status == status && r.error == InternalError && r.details == Some(thrown.message)
    ensures thrown.NonError? ==> r.status == status && r.error == InternalError && r.details == Some("Erreur inconnue")
  {
    match thrown
    case Error(m) =>
      if m == Unauthorized then ErrorResponse(401, false, "Utilisateur non authentifié", None)
      else if m == CvDataMissing then ErrorResponse(400, false, "Données CV requises", None)
      else if m == ValidationFailed then ErrorResponse(400, false, "Nom et email requis", None)
      else if m == GeminiImprovementFailed then
        ErrorResponse(500, false, "Erreur lors de l'amélioration du CV",
          Some("Service d'amélioration temporairement indisponible"))
      else if m == InvalidImprovedCvStructure then
        ErrorResponse(500, false, "Structure JSON invalide retournée par l'IA", None)
      else ErrorResponse(status, false, InternalError, Some(m))
    case NonError => ErrorResponse(status, false, InternalError, Some("Erreur inconnue"))
  }

  predicate IsKnownMessage(m: String) {
    m == Unauthorized || m == CvDataMissing || m == ValidationFailed ||
    m == GeminiImprovementFailed || m == InvalidImprovedCvStructure
  }

  /** The status argument only matters for unknown errors. */
  lemma StatusIgnoredForKnown(m: String, s1: nat, s2: nat)
    requires IsKnownMessage(m)
    ensures CreateErrorResponse(Error(m), s1) == CreateErrorResponse(Error(m), s2)
  {
  }

  /** A rejected payload always gives a 400 response naming what is
      missing, and a missing header always gives 401. */
  lemma RejectionsAreClientErrors(body: RequestBody, authorization: Option<String>, status: nat)
    ensures ParseAndValidate(body).Err? ==>
      var r := CreateErrorResponse(Error(ParseAndValidate(body).error), status);
      r.status == 400 && (r.error == "Données CV requises" <==> body.cvData.None? && body.formData.None?)
    ensures BearerToken(authorization).Err? ==>
      CreateErrorResponse(Error(BearerToken(authorization).error), status).status == 401
  {
    if ParseAndValidate(body).Err? {
      assert CvDataMissing != ValidationFailed;
    }
  }
}
