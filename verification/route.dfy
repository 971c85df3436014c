/** The scan endpoint (`src/app/api/creator-dna/scan/route.ts`): the
    outcome of a request as an HTTP status and a JSON body. */
module Route {
  import opened Optional
  import opened JsValues
  import opened DnaTypes
  import opened Schemas
  import opened Scanner

  datatype HttpMethod = Get | Post

  /** The JSON bodies the endpoint answers with: a scanner result (also the
      shape of the route's own validation error), the generic
      `INTERNAL_ERROR`, or the refusal of a method other than POST. */
  datatype ResponseBody =
    | Scan(result: ScannerResult)
    | InternalError(message: string)
    | NotAllowed(message: string)

  datatype Response = Response(status: nat, body: ResponseBody)

  const InvalidBodyMessage: string := "Invalid request body"
  const UnexpectedErrorMessage: string := "An unexpected error occurred"
  const UsePostMessage: string := "Method not allowed. Use POST."

  /** The status of a scanner result: 200 on success, 400 for
      `INSUFFICIENT_DATA`, 500 for every other error code. */
  function StatusFor(result: ScannerResult): (status: nat)
    ensures status == 200 <==> result.Succeeded?
    ensures status == 400 <==> result.Failed? && result.error.code == InsufficientData
    ensures status == 500 <==> result.Failed? && result.error.code != InsufficientData
  {
    if result.Succeeded? then 200
    else if result.error.code == InsufficientData then 400
    else 500
  }

  /** `POST`. The body is `None` when `request.json()` throws; the catch
      turns that into `INTERNAL_ERROR`. A body that fails the schema is
      answered with 400 before the scanner runs; otherwise the scanner's
      result is sent unchanged with its status. */
  function HandlePost(body: Option<JsValue>, host: Host): (r: Response)
    ensures body.None? ==> r == Response(500, InternalError(UnexpectedErrorMessage))
    ensures body.Some? && ValidateCreatorData(body.value, host.isDatetime).None? ==>
      r == Response(400, Scan(Failed(ScannerError(ValidationError, InvalidBodyMessage))))
    ensures body.Some? && ValidateCreatorData(body.value, host.isDatetime).Some? ==>
      r.body == Scan(AnalyzeCreatorDna(ValidateCreatorData(body.value, host.isDatetime).value, NoConfig, host))
      && r.status == StatusFor(r.body.result)
  {
    match body
    case None => Response(500, InternalError(UnexpectedErrorMessage))
    case Some(json) =>
      match ValidateCreatorData(json, host.isDatetime)
      case None => Response(400, Scan(Failed(ScannerError(ValidationError, InvalidBodyMessage))))
      case Some(data) =>
        var result := AnalyzeCreatorDna(data, NoConfig, host);
        Response(StatusFor(result), Scan(result))
  }

  /** `GET`: always refused. */
  function HandleGet(): (r: Response)
    ensures r.status == 405
  {
    Response(405, NotAllowed(UsePostMessage))
  }

  /** The route's two handlers: GET is refused, and POST is answered with
      200, 400 or 500. */
  function Handle(verb: HttpMethod, body: Option<JsValue>, host: Host): (r: Response)
    ensures verb == Get ==> r.status == 405
    ensures verb == Post ==> r.status in {200, 400, 500}
  {
    PostStatuses(body, host);
    match verb
    case Get => HandleGet()
    case Post => HandlePost(body, host)
  }

  /** A body that passes the route's schema check passes the scanner's
      too, so the scanner succeeds and the answer is 200. */
  lemma ValidBodySucceeds(json: JsValue, host: Host)
    requires ValidateCreatorData(json, host.isDatetime).Some?
    ensures HandlePost(Some(json), host).status == 200
    ensures HandlePost(Some(json), host).body.result.Succeeded?
  {
  }

  /** Every POST is answered with 200, 400 or 500, and 400 only for a body
      that fails the schema. */
  lemma PostStatuses(body: Option<JsValue>, host: Host)
    ensures HandlePost(body, host).status in {200, 400, 500}
    ensures HandlePost(body, host).status == 400 <==>
      body.Some? && ValidateCreatorData(body.value, host.isDatetime).None?
  {
  }

  /** Only POST reaches the scanner. */
  lemma GetIsRefused(body: Option<JsValue>, host: Host)
    ensures Handle(Get, body, host) == Response(405, NotAllowed(UsePostMessage))
  {
  }
}
