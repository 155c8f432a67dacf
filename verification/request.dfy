/** The request `sendPhoto` sends to the Cloud Vision `images:annotate`
    endpoint: the base64 content cut out of the photo's data URL, wrapped in
    a one-request, one-feature FACE_DETECTION body (src/camera/camera.js). */
module VisionRequest {

  /** `s.indexOf(c)`: the first position of `c` in `s`, or -1. */
  function IndexOf(s: string, c: char): (r: int)
    ensures -1 <= r < |s|
    ensures r == -1 <==> c !in s
    ensures r >= 0 ==> s[r] == c && c !in s[..r]
  {
    if |s| == 0 then -1
    else if s[0] == c then 0
    else
      var k := IndexOf(s[1..], c);
      if k == -1 then -1
      else
        assert s[..k + 1] == [s[0]] + s[1..][..k];
        k + 1
  }

  /** `s.substring(start)`: JavaScript clamps the start into `0..|s|`. */
  function SubstringFrom(s: string, start: int): (r: string)
    ensures 0 <= start <= |s| ==> s == s[..start] + r
    ensures start < 0 ==> r == s
    ensures start > |s| ==> r == []
  {
    if start < 0 then s
    else if start > |s| then []
    else s[start..]
  }

  /** The photo content: everything after the first comma of the data URL,
      or the whole string when it has no comma. */
  function ExtractContent(photoData: string): (r: string)
    ensures ',' !in photoData ==> r == photoData
    ensures ',' in photoData ==>
      var p := |photoData| - |r| - 1;
      0 <= p && photoData == photoData[..p] + "," + r && ',' !in photoData[..p]
  {
    var index := IndexOf(photoData, ',');
    SubstringFrom(photoData, index + 1)
  }

  /** The data URL a canvas produces: a comma-free header, a comma, then the
      base64 payload. */
  function DataUrl(mediaType: string, payload: string): string
  {
    "data:" + mediaType + ";base64," + payload
  }

  /** Cutting at the first comma recovers the payload of any string made of a
      comma-free header, a comma and the payload. */
  lemma ContentAfterHeader(header: string, payload: string)
    requires ',' !in header
    ensures ExtractContent(header + "," + payload) == payload
  {
    var s := header + "," + payload;
    var i := IndexOf(s, ',');
    assert s[|header|] == ',';
    assert s[..|header|] == header;
    assert s[..|header| + 1] == header + ",";
  }

  /** The content sent for a canvas data URL is its base64 payload. */
  lemma ContentOfDataUrl(mediaType: string, payload: string)
    requires ',' !in mediaType
    ensures ExtractContent(DataUrl(mediaType, payload)) == payload
  {
    var header := "data:" + mediaType + ";base64";
    assert DataUrl(mediaType, payload) == header + "," + payload;
    assert ',' !in header by {
      assert header == "data:" + mediaType + ";base64";
      forall i | 0 <= i < |header| ensures header[i] != ',' {
        if 5 <= i < 5 + |mediaType| {
          assert header[i] == mediaType[i - 5];
        }
      }
    }
    ContentAfterHeader(header, payload);
  }

  /** The content is a suffix of the photo data: nothing is added to it. */
  lemma ContentIsSuffix(photoData: string)
    ensures |ExtractContent(photoData)| <= |photoData|
    ensures ExtractContent(photoData) == photoData[|photoData| - |ExtractContent(photoData)|..]
  {
  }

  /** One requested feature of the annotate call. */
  datatype Feature = Feature(maxResults: int, kind: string)

  datatype Image = Image(content: string)

  datatype AnnotateRequest = AnnotateRequest(features: seq<Feature>, image: Image)

  /** The JSON body, before serialisation. */
  datatype Body = Body(requests: seq<AnnotateRequest>)

  datatype Header = Header(name: string, value: string)

  datatype HttpRequest = HttpRequest(url: string, httpMethod: string, headers: seq<Header>, body: Body)

  const VisionUrl: string := "https://vision.googleapis.com/v1/images:annotate"

  /** The single feature asked for: the top face only. */
  const FaceDetection: Feature := Feature(1, "FACE_DETECTION")

  /** The POST `sendPhoto` issues for a photo, authorised by the bearer token. */
  function BuildRequest(photoData: string, authToken: string): (r: HttpRequest)
    ensures r.url == VisionUrl && r.httpMethod == "POST"
    ensures Header("Authorization", "Bearer " + authToken) in r.headers
    ensures Header("Content-Type", "application/json") in r.headers
    ensures |r.body.requests| == 1
    ensures r.body.requests[0].features == [FaceDetection]
    ensures r.body.requests[0].image.content == ExtractContent(photoData)
  {
    var headers := [
      Header("Authorization", "Bearer " + authToken),
      Header("Content-Type", "application/json")
    ];
    var content := ExtractContent(photoData);
    HttpRequest(VisionUrl, "POST", headers,
      Body([AnnotateRequest([FaceDetection], Image(content))]))
  }

  /** The request for a canvas photo carries exactly its base64 payload. */
  lemma RequestCarriesPayload(mediaType: string, payload: string, authToken: string)
    requires ',' !in mediaType
    ensures BuildRequest(DataUrl(mediaType, payload), authToken).body.requests[0].image.content == payload
  {
    ContentOfDataUrl(mediaType, payload);
  }
}
