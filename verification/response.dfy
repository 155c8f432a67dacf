/** Reading the face annotation out of the Cloud Vision reply, and the whole
    of `sendPhoto`: build the request, hand it to the network, take
    `responses[0].faceAnnotations[0]`, and turn every failure into "no
    annotation" (src/camera/camera.js). */
module VisionResponse {
  import opened Wrappers
  import opened Emotions
  import opened VisionRequest

  /** One entry of `responses`; `faceAnnotations` may be missing. */
  datatype AnnotateResponse = AnnotateResponse(faceAnnotations: Option<seq<Annotation>>)

  /** The parsed reply body; `responses` may be missing (an error body). */
  datatype ResponseJson = ResponseJson(responses: Option<seq<AnnotateResponse>>)

  /** What `await fetch(...)` followed by `await res.json()` yields: either
      the network call rejected, or a reply with a status and a body that may
      fail to parse as JSON. */
  datatype FetchOutcome =
    | Rejected
    | Reply(status: int, json: Option<ResponseJson>)

  /** JavaScript `xs[i]`: indexing `undefined` throws, indexing past the end
      gives `undefined`. */
  function Index<T>(xs: Option<seq<T>>, i: nat): (r: Result<Option<T>, JsError>)
    ensures r.Failure? <==> xs.None?
    ensures r.Failure? ==> r.error == TypeError
    ensures r.Success? ==> (r.value.Some? <==> i < |xs.value|)
    ensures r.Success? && r.value.Some? ==> r.value.value == xs.value[i]
  {
    match xs
    case None => Failure(TypeError)
    case Some(s) => if i < |s| then Success(Some(s[i])) else Success(None)
  }

  /** The reply carries a first face: every step of the path exists. */
  ghost predicate FirstFaceIs(o: FetchOutcome, a: Annotation)
  {
    && o.Reply? && o.json.Some?
    && o.json.value.responses.Some? && |o.json.value.responses.value| > 0
    && o.json.value.responses.value[0].faceAnnotations.Some?
    && |o.json.value.responses.value[0].faceAnnotations.value| > 0
    && o.json.value.responses.value[0].faceAnnotations.value[0] == a
  }

  /** The reply's first response is present and lists no face at all. */
  ghost predicate NoFaceListed(o: FetchOutcome)
  {
    && o.Reply? && o.json.Some?
    && o.json.value.responses.Some? && |o.json.value.responses.value| > 0
    && o.json.value.responses.value[0].faceAnnotations == Some([])
  }

  /** The `try` block of `sendPhoto` after the network call: evaluates
      `obj.responses[0].faceAnnotations[0]` with JavaScript's rules. */
  function Lookup(o: FetchOutcome): (r: Result<Option<Annotation>, JsError>)
    ensures forall a :: r == Success(Some(a)) <==> FirstFaceIs(o, a)
    ensures r == Success(None) <==> NoFaceListed(o)
    ensures o.Rejected? || (o.Reply? && o.json.None?) ==> r == Failure(FetchRejected)
  {
    match o
    case Rejected => Failure(FetchRejected)
    case Reply(_, json) =>
      match json
      case None => Failure(FetchRejected)
      case Some(obj) =>
        match Index(obj.responses, 0)
        case Failure(e) => Failure(e)
        case Success(first) =>
          match first
          case None => Failure(TypeError) // `undefined.faceAnnotations`
          case Some(resp) => Index(resp.faceAnnotations, 0)
  }

  /** `sendPhoto(photoData)`: the annotation of the first face, or none.
      The network is the parameter `server`; the token is the parameter
      `authToken`. Nothing escapes as an exception. */
  function SendPhoto(photoData: string, authToken: string, server: HttpRequest -> FetchOutcome)
    : (r: Option<Annotation>)
    ensures forall a :: r == Some(a) <==>
      FirstFaceIs(server(BuildRequest(photoData, authToken)), a)
  {
    match Lookup(server(BuildRequest(photoData, authToken)))
    case Success(a) => a
    case Failure(_) => None
  }

  /** The HTTP status plays no part: only the body decides the result. */
  lemma StatusIgnored(s1: int, s2: int, json: Option<ResponseJson>)
    ensures Lookup(Reply(s1, json)) == Lookup(Reply(s2, json))
  {
  }

  /** An error reply — any status whose body has no `responses` — throws
      inside the lookup and so yields no annotation. */
  lemma ErrorBodyGivesNoAnnotation(photoData: string, authToken: string,
                                   server: HttpRequest -> FetchOutcome, status: int)
    requires server(BuildRequest(photoData, authToken)) == Reply(status, Some(ResponseJson(None)))
    ensures Lookup(Reply(status, Some(ResponseJson(None)))) == Failure(TypeError)
    ensures SendPhoto(photoData, authToken, server) == None
  {
  }

  /** A reply whose first response lists one or more faces yields the first
      one only, whatever the status. */
  lemma OnlyFirstFace(status: int, faces: seq<Annotation>, rest: seq<AnnotateResponse>)
    requires |faces| >= 1
    ensures Lookup(Reply(status, Some(ResponseJson(Some(
      [AnnotateResponse(Some(faces))] + rest))))) == Success(Some(faces[0]))
  {
    var o := Reply(status, Some(ResponseJson(Some([AnnotateResponse(Some(faces))] + rest))));
    assert FirstFaceIs(o, faces[0]);
  }

  /** A 200 reply whose first face says joy is POSSIBLE yields that face:
      joy is assessed "maybe" and is not shown as present. */
  lemma PossibleJoyExample(photoData: string, authToken: string, server: HttpRequest -> FetchOutcome)
    requires server(BuildRequest(photoData, authToken)) ==
      Reply(200, Some(ResponseJson(Some([AnnotateResponse(Some([map["joyLikelihood" := "POSSIBLE"]]))]))))
    ensures SendPhoto(photoData, authToken, server) == Some(map["joyLikelihood" := "POSSIBLE"])
    ensures Assess(map["joyLikelihood" := "POSSIBLE"], "joy") == Some("maybe")
    ensures !Has(SendPhoto(photoData, authToken, server), "joy")
  {
    var a := map["joyLikelihood" := "POSSIBLE"];
    assert FirstFaceIs(server(BuildRequest(photoData, authToken)), a);
    assert Key("joy") == "joyLikelihood";
  }
}
