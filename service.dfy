/** Obtaining the authenticated client of the remote task API. Reading the
    token file and building the client are not modelled; only their
    outcome is, together with the error each failure raises. */
module Service {
  import opened Wrappers

  /** What the service finds when it looks for its stored tokens. */
  datatype TokenFile =
    | Missing                   // no file at the token path
    | Unusable(reason: string)  // opening, parsing or building the client failed with this message
    | Usable                    // the client was built

  /** The authenticated client handle of the remote API. */
  datatype GoogleService = TasksV1

  /** An HTTP error the service raises: its status and its detail text. */
  datatype HttpException = HttpException(statusCode: int, detail: string)

  const InternalServerError := 500

  const MissingTokensPrefix := "tokens.json not found at "
  const BuildFailurePrefix := "Failed to create Google Tasks service: "

  /** `part` occurs in `text` starting at index `i`. */
  predicate OccursAt(text: string, part: string, i: nat)
  {
    i + |part| <= |text| && text[i..i + |part|] == part
  }

  /** `text` contains `part` somewhere. */
  ghost predicate Contains(text: string, part: string)
  {
    exists i: nat :: OccursAt(text, part, i)
  }

  /** The client, or the error raised instead: a missing token file and
      any failure to load it or build the client are internal server
      errors whose detail names the path or the underlying error. */
  function GetGoogleService(tokenPath: string, file: TokenFile): (r: Result<GoogleService, HttpException>)
    ensures r.Success? <==> file.Usable?
    ensures r.Failure? ==> r.error.statusCode == InternalServerError
    ensures file.Missing? ==> r.error.detail == MissingTokensPrefix + tokenPath
    ensures file.Unusable? ==> r.error.detail == BuildFailurePrefix + file.reason
  {
    match file
    case Missing => Failure(HttpException(InternalServerError, MissingTokensPrefix + tokenPath))
    case Unusable(reason) => Failure(HttpException(InternalServerError, BuildFailurePrefix + reason))
    case Usable => Success(TasksV1)
  }

  /** A missing token file yields status 500 with a detail that contains
      the path that was tried. */
  lemma MissingTokensNamesPath(tokenPath: string)
    ensures GetGoogleService(tokenPath, Missing).Failure?
    ensures GetGoogleService(tokenPath, Missing).error.statusCode == 500
    ensures Contains(GetGoogleService(tokenPath, Missing).error.detail, tokenPath)
  {
    var detail := GetGoogleService(tokenPath, Missing).error.detail;
    var at := |MissingTokensPrefix|;
    assert OccursAt(detail, tokenPath, at);
  }

  /** A failure to load the tokens or build the client yields status 500
      with a detail that contains the underlying error. */
  lemma BuildFailureNamesError(tokenPath: string, reason: string)
    ensures GetGoogleService(tokenPath, Unusable(reason)).Failure?
    ensures GetGoogleService(tokenPath, Unusable(reason)).error.statusCode == 500
    ensures Contains(GetGoogleService(tokenPath, Unusable(reason)).error.detail, reason)
  {
    var detail := GetGoogleService(tokenPath, Unusable(reason)).error.detail;
    var at := |BuildFailurePrefix|;
    assert OccursAt(detail, reason, at);
  }
}
