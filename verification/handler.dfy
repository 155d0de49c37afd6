/**
 * The serverless request handler (`lambda_handler`): pick the image bytes out
 * of one of three event shapes, run the detection engine on them and map the
 * outcome to an HTTP-style response. Base64 decoding, the object-storage
 * fetch and the detection engine itself are given as services that may fail;
 * a failure stands for an exception raised inside the handler's `try`.
 */
module Handler {
  import opened Barcodes
  import Detection

  type Bytes = seq<bv8>

  /** Bucket name and object key of a storage notification. */
  datatype S3Location = S3Location(bucket: string, key: string)

  /**
   * First entry of an event's `Records` list: its `eventSource`, and its
   * `s3.bucket.name` / `s3.object.key` path, None when that path is incomplete.
   */
  datatype Record = Record(eventSource: Option<string>, location: Option<S3Location>)

  /** The value of an event's `image` field: a string, or any other JSON value. */
  datatype ImageField = Text(text: string) | NonText

  /** The fields of an event the handler looks at; an absent field is None (or false). */
  datatype Event = Event(body: Option<string>, isBase64Encoded: bool,
                         records: Option<seq<Record>>, image: Option<ImageField>)

  /** What `detect_barcode` does with some bytes: a result, None, or an exception. */
  datatype DetectOutcome = Found(detection: Detection.BarcodeResult) | NotFound | Failed

  /** The calls the handler delegates, each returning None where it would raise. */
  datatype Services = Services(b64decode: string -> Option<Bytes>,
                               getObject: S3Location -> Option<Bytes>,
                               detect: Bytes -> DetectOutcome)

  datatype Header = Header(name: string, value: string)

  /** The JSON body of a response. */
  datatype Payload =
    | InvalidInput(error: string)
    | Detected(success: bool, barcodeValue: string, barcodeType: string, hits: nat, total: nat,
               requestId: string)
    | Failure(success: bool, code: string, message: string, requestId: string)

  datatype Response = Response(statusCode: nat, headers: seq<Header>, body: Payload)

  const JsonHeaders: seq<Header> :=
    [Header("Content-Type", "application/json"), Header("Access-Control-Allow-Origin", "*")]

  const InvalidFormat: Response := Response(400, [], InvalidInput("Invalid input format"))

  /** Which branch of the dispatch chain an event takes. */
  datatype Route =
    | FromBody(payload: string)
    | FromS3(record: Record)
    | FromImage(payload: string)
    | RecordsUnreadable   // `Records` is an empty list: indexing it raises
    | Unrecognised

  /** An API gateway upload: a `body` and a true `isBase64Encoded` flag. */
  predicate IsUpload(e: Event)
  {
    e.body.Some? && e.isBase64Encoded
  }

  /**
   * The storage test is reached and either holds or raises: `Records` is
   * present and empty (the index raises) or its first entry comes from "aws:s3".
   */
  predicate ClaimsS3(e: Event)
  {
    e.records.Some? && (e.records.value == [] || e.records.value[0].eventSource == Some("aws:s3"))
  }

  /** A direct call carrying a base64 string in `image`. */
  predicate IsInlineImage(e: Event)
  {
    e.image.Some? && e.image.value.Text?
  }

  /** The if/elif chain of the handler, in its order. */
  function Dispatch(e: Event): (route: Route)
    ensures route.Unrecognised? <==> !IsUpload(e) && !ClaimsS3(e) && !IsInlineImage(e)
  {
    if IsUpload(e) then FromBody(e.body.value)
    else if ClaimsS3(e) then
      (if e.records.value == [] then RecordsUnreadable else FromS3(e.records.value[0]))
    else if IsInlineImage(e) then FromImage(e.image.value.text)
    else Unrecognised
  }

  /** The image bytes a recognised event yields, None where obtaining them raises. */
  function Obtain(route: Route, svc: Services): Option<Bytes>
  {
    match route
    case FromBody(payload) => svc.b64decode(payload)
    case FromS3(record) =>
      if record.location.None? then None else svc.getObject(record.location.value)
    case FromImage(payload) => svc.b64decode(payload)
    case RecordsUnreadable => None
    case Unrecognised => None
  }

  function ProcessingError(requestId: string): Response
  {
    Response(500, JsonHeaders,
             Failure(false, "PROCESSING_ERROR", "An error occurred while processing the image", requestId))
  }

  /** The response for bytes obtained (or not) from a recognised event. */
  function Respond(bytes: Option<Bytes>, svc: Services, requestId: string): (r: Response)
    ensures r.statusCode in {200, 404, 500} && !r.body.InvalidInput?
    ensures r.headers == JsonHeaders && r.body.requestId == requestId
    ensures r.body.Detected? <==> r.statusCode == 200
    ensures r.body.success <==> r.statusCode == 200
    ensures r.statusCode == 404 ==> r.body.code == "BARCODE_NOT_FOUND"
    ensures r.statusCode == 500 ==> r.body.code == "PROCESSING_ERROR"
  {
    if bytes.None? then ProcessingError(requestId)
    else
      match svc.detect(bytes.value)
      case Found(d) =>
        Response(200, JsonHeaders, Detected(true, d.data, d.kind, d.hits, d.total, requestId))
      case NotFound =>
        Response(404, JsonHeaders,
                 Failure(false, "BARCODE_NOT_FOUND", "No barcode could be detected in the provided image",
                         requestId))
      case Failed => ProcessingError(requestId)
  }

  /**
   * `lambda_handler` as intended: the `success` flags are real booleans and
   * the request id is passed in (the source writes the undefined names `true`
   * and `false`, and reads `context.awsRequestId`, which the Lambda context
   * object does not have; HandleAsWritten models that).
   */
  function Handle(e: Event, svc: Services, requestId: string): (r: Response)
    ensures r.statusCode in {200, 400, 404, 500}
    ensures r.statusCode == 400 <==> !IsUpload(e) && !ClaimsS3(e) && !IsInlineImage(e)
    ensures r.statusCode == 400 ==> r.headers == [] && r.body == InvalidInput("Invalid input format")
    ensures r.body.Detected? <==> r.statusCode == 200
    ensures r.body.Failure? <==> r.statusCode in {404, 500}
    ensures !r.body.InvalidInput? ==> r.headers == JsonHeaders && r.body.requestId == requestId
    ensures !r.body.InvalidInput? ==> (r.body.success <==> r.statusCode == 200)
    ensures r.statusCode == 404 ==> r.body.code == "BARCODE_NOT_FOUND"
    ensures r.statusCode == 500 ==> r.body.code == "PROCESSING_ERROR"
  {
    var route := Dispatch(e);
    if route.Unrecognised? then InvalidFormat else Respond(Obtain(route, svc), svc, requestId)
  }

  /**
   * Status mapping once the bytes are in hand: a detection gives 200 carrying
   * its value, type and confidence, no detection 404, an exception 500.
   */
  lemma StatusFollowsDetection(e: Event, svc: Services, requestId: string, bytes: Bytes)
    requires !Dispatch(e).Unrecognised? && Obtain(Dispatch(e), svc) == Some(bytes)
    ensures svc.detect(bytes).Found? ==>
              var d := svc.detect(bytes).detection;
              Handle(e, svc, requestId)
                == Response(200, JsonHeaders, Detected(true, d.data, d.kind, d.hits, d.total, requestId))
    ensures svc.detect(bytes).NotFound? ==> Handle(e, svc, requestId).statusCode == 404
    ensures svc.detect(bytes).Failed? ==> Handle(e, svc, requestId) == ProcessingError(requestId)
  {
  }

  /**
   * Which event field supplies the bytes detection receives: the `body` of an
   * upload, the object a complete storage path names, or the `image` string.
   */
  lemma BytesFromEvent(e: Event, svc: Services, requestId: string)
    ensures IsUpload(e) ==> Handle(e, svc, requestId) == Respond(svc.b64decode(e.body.value), svc, requestId)
    ensures !IsUpload(e) && ClaimsS3(e) && e.records.value != [] && e.records.value[0].location.Some? ==>
              Handle(e, svc, requestId) == Respond(svc.getObject(e.records.value[0].location.value), svc, requestId)
    ensures !IsUpload(e) && !ClaimsS3(e) && IsInlineImage(e) ==>
              Handle(e, svc, requestId) == Respond(svc.b64decode(e.image.value.text), svc, requestId)
  {
  }

  /**
   * Each way of failing to obtain the bytes gives 500: a failing base64
   * decode of `body` or `image`, an empty `Records` list, a storage record
   * whose bucket or key is missing, and a failing storage fetch.
   */
  lemma FetchFailureIs500(e: Event, svc: Services, requestId: string)
    ensures IsUpload(e) && svc.b64decode(e.body.value).None? ==> Handle(e, svc, requestId) == ProcessingError(requestId)
    ensures !IsUpload(e) && e.records == Some([]) ==> Handle(e, svc, requestId) == ProcessingError(requestId)
    ensures !IsUpload(e) && ClaimsS3(e) && e.records.value != [] && e.records.value[0].location.None? ==>
              Handle(e, svc, requestId) == ProcessingError(requestId)
    ensures !IsUpload(e) && ClaimsS3(e) && e.records.value != [] && e.records.value[0].location.Some? &&
            svc.getObject(e.records.value[0].location.value).None? ==>
              Handle(e, svc, requestId) == ProcessingError(requestId)
    ensures !IsUpload(e) && !ClaimsS3(e) && IsInlineImage(e) && svc.b64decode(e.image.value.text).None? ==>
              Handle(e, svc, requestId) == ProcessingError(requestId)
  {
  }

  /** A base64 upload takes priority: `Records` and `image` are then never looked at. */
  lemma UploadTakesPriority(e: Event, f: Event, svc: Services, requestId: string)
    requires IsUpload(e) && f.body == e.body && f.isBase64Encoded == e.isBase64Encoded
    ensures Handle(f, svc, requestId) == Handle(e, svc, requestId)
  {
  }

  /** A storage notification takes priority over `image`. */
  lemma StorageTakesPriorityOverImage(e: Event, f: Event, svc: Services, requestId: string)
    requires !IsUpload(e) && !IsUpload(f) && ClaimsS3(e) && f.records == e.records
    ensures Handle(f, svc, requestId) == Handle(e, svc, requestId)
  {
  }

  /** What escapes the handler as written: a response, or an uncaught exception. */
  datatype Outcome = Returned(response: Response) | Raised(exception: string)

  /**
   * `lambda_handler` as written. Every path past the dispatch builds a body
   * naming `true` or `false`, which are undefined in Python; the NameError is
   * caught, and the `except` block's own body names `false`, so it escapes.
   */
  function HandleAsWritten(e: Event): Outcome
  {
    if Dispatch(e).Unrecognised? then Returned(InvalidFormat) else Raised("NameError")
  }

  /** As written, only the 400 path returns; it agrees with Handle there. */
  lemma AsWrittenOnlyRejects(e: Event, svc: Services, requestId: string)
    ensures HandleAsWritten(e).Returned? <==> Handle(e, svc, requestId).statusCode == 400
    ensures HandleAsWritten(e).Returned? ==> HandleAsWritten(e).response == Handle(e, svc, requestId)
  {
  }

  /** A well-formed upload whose bytes hold a barcode raises instead of answering 200. */
  lemma AsWrittenUploadRaises(svc: Services, bytes: Bytes, d: Detection.BarcodeResult)
    requires svc.b64decode("aW1n") == Some(bytes) && svc.detect(bytes) == Found(d)
    ensures Handle(Event(Some("aW1n"), true, None, None), svc, "req-1").statusCode == 200
    ensures HandleAsWritten(Event(Some("aW1n"), true, None, None)).Raised?
  {
  }
}
