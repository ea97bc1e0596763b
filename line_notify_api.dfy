/**
 * The LINE Notify client: eight `send` overloads that describe one HTTP POST
 * to the notification endpoint, hand it to the transport, and turn what comes
 * back into a `SentResponseBody`.
 *
 * The transport (an asynchronous HTTP client and the JSON decoder behind it)
 * is the parameter `transport`: it maps the request to the outcome of
 * executing it.
 */
module LineNotify {
  import opened Java
  import opened SentResponse

  const ENDPOINT_SEND_NOTIFICATION: string := "https://notify-api.line.me/api/notify"
  const FORM_URLENCODED: string := "application/x-www-form-urlencoded"
  const MULTIPART_FORM_DATA: string := "multipart/form-data"

  // ---------------------------------------------------------------------------
  // Requests
  // ---------------------------------------------------------------------------

  /** A local image file, passed by reference; its contents are not modelled. */
  datatype FileRef = FileRef(path: string)

  /** The `ContentType` constant a multipart part is built with. */
  datatype PartContentType = MultipartFormData | DefaultBinary

  datatype Part =
    | StringPart(name: string, text: string, contentType: PartContentType)
    | FilePart(name: string, file: FileRef, contentType: PartContentType)

  /** The request body, as the ordered list of named fields it is built from. */
  datatype Entity =
    | UrlEncodedForm(pairs: seq<(string, string)>)
    | Multipart(parts: seq<Part>)

  datatype Header = Header(name: string, value: string)

  /** An HTTP POST; the client never issues any other method. */
  datatype Request = Post(uri: string, headers: seq<Header>, entity: Entity)

  /** What one flagged `send` overload is asked to deliver. */
  datatype Variant =
    | Text(message: string, notificationDisabled: bool)
    | Sticker(message: string, stickerPackageId: Int32, stickerId: Int32, notificationDisabled: bool)
    | ImageUrl(message: string, imageFullsize: string, notificationDisabled: bool)
    | ImageFile(message: string, imageFile: FileRef, notificationDisabled: bool)

  /** The headers both request paths set, in the order they set them. */
  function Headers(contentType: string, accessToken: string): seq<Header> {
    [Header("Content-Type", contentType), Header("Authorization", "Bearer " + accessToken)]
  }

  function FormRequest(accessToken: string, pairs: seq<(string, string)>): Request {
    Post(ENDPOINT_SEND_NOTIFICATION, Headers(FORM_URLENCODED, accessToken), UrlEncodedForm(pairs))
  }

  function MultipartRequest(accessToken: string, parts: seq<Part>): Request {
    Post(ENDPOINT_SEND_NOTIFICATION, Headers(MULTIPART_FORM_DATA, accessToken), Multipart(parts))
  }

  /** The value of the first header called `name`, if any. */
  function HeaderValue(headers: seq<Header>, name: string): Option<string> {
    if headers == [] then None
    else if headers[0].name == name then Some(headers[0].value)
    else HeaderValue(headers[1..], name)
  }

  function PartName(p: Part): string {
    match p
    case StringPart(name, _, _) => name
    case FilePart(name, _, _) => name
  }

  /** The names of the body's fields, in order. */
  function FieldNames(e: Entity): seq<string> {
    match e
    case UrlEncodedForm(pairs) => seq(|pairs|, i requires 0 <= i < |pairs| => pairs[i].0)
    case Multipart(parts) => seq(|parts|, i requires 0 <= i < |parts| => PartName(parts[i]))
  }

  function PairValue(pairs: seq<(string, string)>, name: string): Option<string> {
    if pairs == [] then None
    else if pairs[0].0 == name then Some(pairs[0].1)
    else PairValue(pairs[1..], name)
  }

  function PartText(parts: seq<Part>, name: string): Option<string> {
    if parts == [] then None
    else if parts[0].StringPart? && parts[0].name == name then Some(parts[0].text)
    else PartText(parts[1..], name)
  }

  /** The text of the first field called `name`; a file part has no text. */
  function FieldText(e: Entity, name: string): Option<string> {
    match e
    case UrlEncodedForm(pairs) => PairValue(pairs, name)
    case Multipart(parts) => PartText(parts, name)
  }

  /** The file of the first file part called `name`. */
  function PartFile(parts: seq<Part>, name: string): Option<FileRef> {
    if parts == [] then None
    else if parts[0].FilePart? && parts[0].name == name then Some(parts[0].file)
    else PartFile(parts[1..], name)
  }

  /** The field names each variant sends, in order, and no others. */
  function ExpectedFieldNames(v: Variant): seq<string> {
    match v
    case Text(_, _) => ["message", "notificationDisabled"]
    case Sticker(_, _, _, _) => ["message", "stickerPackageId", "stickerId", "notificationDisabled"]
    case ImageUrl(_, _, _) => ["message", "imageFullsize", "notificationDisabled"]
    case ImageFile(_, _, _) => ["message", "imageFile", "notificationDisabled"]
  }

  /** The request the flagged `send` overload for `v` hands to the transport. */
  function Describe(accessToken: string, v: Variant): (r: Request)
    ensures r.uri == ENDPOINT_SEND_NOTIFICATION
    ensures HeaderValue(r.headers, "Authorization") == Some("Bearer " + accessToken)
    ensures HeaderValue(r.headers, "Content-Type")
            == Some(if v.ImageFile? then MULTIPART_FORM_DATA else FORM_URLENCODED)
    ensures r.entity.Multipart? <==> v.ImageFile?
    ensures FieldNames(r.entity) == ExpectedFieldNames(v)
    ensures r.entity.Multipart? ==>
              forall p :: p in r.entity.parts ==>
                p.contentType == (if p.FilePart? then DefaultBinary else MultipartFormData)
  {
    match v
    case Text(message, notificationDisabled) =>
      FormRequest(accessToken, [("message", message),
                                ("notificationDisabled", BooleanToString(notificationDisabled))])
    case Sticker(message, stickerPackageId, stickerId, notificationDisabled) =>
      FormRequest(accessToken, [("message", message),
                                ("stickerPackageId", IntegerToString(stickerPackageId)),
                                ("stickerId", IntegerToString(stickerId)),
                                ("notificationDisabled", BooleanToString(notificationDisabled))])
    case ImageUrl(message, imageFullsize, notificationDisabled) =>
      FormRequest(accessToken, [("message", message),
                                ("imageFullsize", imageFullsize),
                                ("notificationDisabled", BooleanToString(notificationDisabled))])
    case ImageFile(message, imageFile, notificationDisabled) =>
      var parts := [StringPart("message", message, MultipartFormData),
                    FilePart("imageFile", imageFile, DefaultBinary),
                    StringPart("notificationDisabled", BooleanToString(notificationDisabled), MultipartFormData)];
      MultipartRequest(accessToken, parts)
  }

  predicate Distinct(names: seq<string>) {
    forall i, j :: 0 <= i < j < |names| ==> names[i] != names[j]
  }

  /** No field name is sent twice. */
  lemma FieldNamesDistinct(accessToken: string, v: Variant)
    ensures Distinct(FieldNames(Describe(accessToken, v).entity))
  {
  }

  lemma {:induction false} PairValueAt(pairs: seq<(string, string)>, i: nat)
    requires i < |pairs|
    requires forall j :: 0 <= j < i ==> pairs[j].0 != pairs[i].0
    ensures PairValue(pairs, pairs[i].0) == Some(pairs[i].1)
  {
    if i > 0 {
      PairValueAt(pairs[1..], i - 1);
    }
  }

  lemma {:induction false} PartAt(parts: seq<Part>, i: nat)
    requires i < |parts|
    requires forall j :: 0 <= j < i ==> PartName(parts[j]) != PartName(parts[i])
    ensures parts[i].StringPart? ==> PartText(parts, parts[i].name) == Some(parts[i].text)
    ensures parts[i].FilePart? ==> PartFile(parts, parts[i].name) == Some(parts[i].file)
  {
    if i > 0 {
      PartAt(parts[1..], i - 1);
    }
  }

  /** With distinct names, looking a field up by its name finds that very field. */
  lemma FieldAt(e: Entity, i: nat)
    requires Distinct(FieldNames(e))
    requires i < |FieldNames(e)|
    ensures e.UrlEncodedForm? ==> FieldText(e, e.pairs[i].0) == Some(e.pairs[i].1)
    ensures e.Multipart? && e.parts[i].StringPart? ==>
              FieldText(e, e.parts[i].name) == Some(e.parts[i].text)
    ensures e.Multipart? && e.parts[i].FilePart? ==>
              PartFile(e.parts, e.parts[i].name) == Some(e.parts[i].file)
  {
    var names := FieldNames(e);
    if e.UrlEncodedForm? {
      assert forall j :: 0 <= j < |e.pairs| ==> names[j] == e.pairs[j].0;
      PairValueAt(e.pairs, i);
    } else {
      assert forall j :: 0 <= j < |e.parts| ==> names[j] == PartName(e.parts[j]);
      PartAt(e.parts, i);
    }
  }

  /** Each field carries the value it is meant to: the caller's arguments, the flag as a word, the ids in decimal. */
  lemma FieldValues(accessToken: string, v: Variant)
    ensures var e := Describe(accessToken, v).entity;
            && FieldText(e, "message") == Some(v.message)
            && FieldText(e, "notificationDisabled") == Some(BooleanToString(v.notificationDisabled))
            && (v.Sticker? ==>
                  && FieldText(e, "stickerPackageId") == Some(IntegerToString(v.stickerPackageId))
                  && FieldText(e, "stickerId") == Some(IntegerToString(v.stickerId)))
            && (v.ImageUrl? ==> FieldText(e, "imageFullsize") == Some(v.imageFullsize))
            && (v.ImageFile? ==> e.Multipart? && PartFile(e.parts, "imageFile") == Some(v.imageFile))
  {
    var e := Describe(accessToken, v).entity;
    FieldNamesDistinct(accessToken, v);
    FieldAt(e, 0);
    match v
    case Text(_, _) =>
      FieldAt(e, 1);
    case Sticker(_, _, _, _) =>
      FieldAt(e, 1);
      FieldAt(e, 2);
      FieldAt(e, 3);
    case ImageUrl(_, _, _) =>
      FieldAt(e, 1);
      FieldAt(e, 2);
    case ImageFile(_, _, _) =>
      FieldAt(e, 1);
      FieldAt(e, 2);
  }

  /** `notificationDisabled` is always sent, as the word `true` or `false`. */
  lemma NotificationDisabledIsLiteral(accessToken: string, v: Variant)
    ensures var text := FieldText(Describe(accessToken, v).entity, "notificationDisabled");
            && (text == Some("true") || text == Some("false"))
            && (text == Some("true") <==> v.notificationDisabled)
  {
    FieldValues(accessToken, v);
  }

  /** The sticker ids are sent in a form that reads back as the very same ints. */
  lemma StickerIdsRoundTrip(accessToken: string, message: string, stickerPackageId: Int32,
                            stickerId: Int32, notificationDisabled: bool)
    ensures var e := Describe(accessToken, Sticker(message, stickerPackageId, stickerId, notificationDisabled)).entity;
            && FieldText(e, "stickerPackageId").Some?
            && ParseInt(FieldText(e, "stickerPackageId").value) == Some(stickerPackageId)
            && FieldText(e, "stickerId").Some?
            && ParseInt(FieldText(e, "stickerId").value) == Some(stickerId)
  {
    FieldValues(accessToken, Sticker(message, stickerPackageId, stickerId, notificationDisabled));
    ParseIntRoundTrip(stickerPackageId);
    ParseIntRoundTrip(stickerId);
  }

  // ---------------------------------------------------------------------------
  // Responses
  // ---------------------------------------------------------------------------

  /**
   * The exceptions `future.get` raises, which the transport paths catch
   * (`CancellationException` is unchecked). The paths' `IOException`s come only
   * from reading the body (`Undecodable`) and from closing the client (`closeThrew`).
   */
  datatype FailureKind = Execution | Cancellation | Interruption

  /**
   * The response body as the JSON decoder reads it: a decoded object, the JSON
   * literal `null` (`Decoded(None)`), or an `IOException` from reading or
   * decoding the body.
   */
  datatype Content = Decoded(json: Option<Fields>) | Undecodable

  /**
   * What executing a request yields: an exception `future.get` raised while
   * waiting for the response, or an HTTP response,
   * together with whether closing the client afterwards threw its `IOException`.
   */
  datatype Outcome =
    | Threw(failure: FailureKind)
    | Responded(statusCode: Int32, content: Content, closeThrew: bool)

  /** The HTTP statuses whose body the client decodes. */
  predicate IsParsable(statusCode: int) {
    match statusCode
    case 200 => true
    case 400 => true
    case 401 => true
    case 500 => true
    case _ => false
  }

  /** The result a transport path returns for an outcome; `None` is a null reference. */
  function MapResponse(outcome: Outcome): (r: Option<Fields>)
    ensures r != Some(DEFAULT) ==>
              outcome.Responded? && IsParsable(outcome.statusCode) && outcome.content == Decoded(r)
  {
    match outcome
    case Threw(_) => Some(DEFAULT)
    case Responded(statusCode, content, _) =>
      if IsParsable(statusCode) && content.Decoded? then content.json else Some(DEFAULT)
  }

  /** What a returned reference holds: `None` for null, else the object's value. */
  function ResultOf(responseBody: SentResponseBody?): Option<Fields>
    reads responseBody
  {
    if responseBody == null then None else Some(responseBody.Value())
  }

  /** Exactly 200, 400, 401 and 500 are classified as parsable. */
  lemma ParsableStatusCodes(statusCode: int)
    ensures IsParsable(statusCode) <==> statusCode in {200, 400, 401, 500}
  {
  }

  /** The sentinel is never one of the classified HTTP statuses. */
  lemma SentinelNeverClassified()
    ensures !IsParsable(UNKNOWN_STATUS)
  {
  }

  /**
   * A classified status with a readable body yields exactly what the decoder
   * produced, a null reference for the JSON literal `null` included.
   */
  lemma ClassifiedStatusYieldsBody(statusCode: Int32, json: Option<Fields>, closeThrew: bool)
    requires IsParsable(statusCode)
    ensures MapResponse(Responded(statusCode, Decoded(json), closeThrew)) == json
  {
  }

  /** Any other status yields the default result, whatever the body holds. */
  lemma UnclassifiedStatusYieldsDefault(statusCode: Int32, content: Content, closeThrew: bool)
    requires !IsParsable(statusCode)
    ensures MapResponse(Responded(statusCode, content, closeThrew)) == Some(DEFAULT)
  {
  }

  /** A body that cannot be read or decoded yields the default result. */
  lemma UndecodableYieldsDefault(statusCode: Int32, closeThrew: bool)
    ensures MapResponse(Responded(statusCode, Undecodable, closeThrew)) == Some(DEFAULT)
  {
  }

  /** Each exception `future.get` raises yields the sentinel status and no message. */
  lemma FailureYieldsDefault(failure: FailureKind)
    ensures MapResponse(Threw(failure)).Some?
    ensures MapResponse(Threw(failure)).value.status == INT_MIN
    ensures MapResponse(Threw(failure)).value.message == None
  {
  }

  /** An exception from closing the client does not reset what was already assigned. */
  lemma CloseFailureKeepsResult(statusCode: Int32, content: Content)
    ensures MapResponse(Responded(statusCode, content, true)) == MapResponse(Responded(statusCode, content, false))
  {
  }

  /** The body influences the result if and only if the status is classified. */
  lemma BodyReadIffParsable(statusCode: Int32, closeThrew: bool)
    ensures IsParsable(statusCode) <==>
              exists c1: Content, c2: Content ::
                MapResponse(Responded(statusCode, c1, closeThrew)) != MapResponse(Responded(statusCode, c2, closeThrew))
  {
    if IsParsable(statusCode) {
      var c1 := Decoded(None);
      assert MapResponse(Responded(statusCode, c1, closeThrew)) != MapResponse(Responded(statusCode, Undecodable, closeThrew));
    }
  }

  // ---------------------------------------------------------------------------
  // The transport paths and the eight public overloads
  // ---------------------------------------------------------------------------

  /**
   * Executes the request and classifies the outcome. The source writes this
   * twice, once per transport path, with the same statements.
   */
  method Execute(request: Request, transport: Request -> Outcome) returns (responseBody: SentResponseBody?)
    ensures responseBody != null ==> fresh(responseBody)
    ensures ResultOf(responseBody) == MapResponse(transport(request))
  {
    responseBody := new SentResponseBody();
    var outcome := transport(request);
    if outcome.Responded? {
      var isParsable := true;
      match outcome.statusCode {
        case 200 =>
        case 400 =>
        case 401 =>
        case 500 =>
        case _ => isParsable := false;
      }
      if isParsable && outcome.content.Decoded? {
        var json := outcome.content.json;
        if json.Some? {
          responseBody := new SentResponseBody.AllArgs(json.value.status, json.value.message);
        } else {
          // the decoder returns null for the JSON literal `null`
          responseBody := null;
        }
      }
      // when reading or decoding throws its IOException, the default result stays;
      // when closing the client throws (closeThrew), what was assigned above stays
    }
    // an exception from `future.get` (Threw) is logged and the default result is returned
  }

  /** The URL-encoded transport path. */
  method SendForm(accessToken: string, pairs: seq<(string, string)>, transport: Request -> Outcome)
    returns (responseBody: SentResponseBody?)
    ensures responseBody != null ==> fresh(responseBody)
    ensures ResultOf(responseBody) == MapResponse(transport(FormRequest(accessToken, pairs)))
  {
    var httpRequest := Post(ENDPOINT_SEND_NOTIFICATION, [], UrlEncodedForm(pairs));
    httpRequest := httpRequest.(headers := httpRequest.headers + [Header("Content-Type", FORM_URLENCODED)]);
    httpRequest := httpRequest.(headers := httpRequest.headers + [Header("Authorization", "Bearer " + accessToken)]);
    assert httpRequest == FormRequest(accessToken, pairs);
    responseBody := Execute(httpRequest, transport);
  }

  method SendTextWithFlag(accessToken: string, message: string, notificationDisabled: bool,
                          transport: Request -> Outcome)
    returns (responseBody: SentResponseBody?)
    ensures responseBody != null ==> fresh(responseBody)
    ensures ResultOf(responseBody)
            == MapResponse(transport(Describe(accessToken, Text(message, notificationDisabled))))
  {
    var pairs: seq<(string, string)> := [];
    pairs := pairs + [("message", message)];
    pairs := pairs + [("notificationDisabled", BooleanToString(notificationDisabled))];
    assert FormRequest(accessToken, pairs) == Describe(accessToken, Text(message, notificationDisabled));
    responseBody := SendForm(accessToken, pairs, transport);
  }

  method SendText(accessToken: string, message: string, transport: Request -> Outcome)
    returns (responseBody: SentResponseBody?)
    ensures responseBody != null ==> fresh(responseBody)
    ensures ResultOf(responseBody) == MapResponse(transport(Describe(accessToken, Text(message, false))))
  {
    responseBody := SendTextWithFlag(accessToken, message, false, transport);
  }

  method SendStickerWithFlag(accessToken: string, message: string, stickerPackageId: Int32,
                             stickerId: Int32, notificationDisabled: bool, transport: Request -> Outcome)
    returns (responseBody: SentResponseBody?)
    ensures responseBody != null ==> fresh(responseBody)
    ensures ResultOf(responseBody)
            == MapResponse(transport(Describe(accessToken,
                 Sticker(message, stickerPackageId, stickerId, notificationDisabled))))
  {
    var pairs: seq<(string, string)> := [];
    pairs := pairs + [("message", message)];
    pairs := pairs + [("stickerPackageId", IntegerToString(stickerPackageId))];
    pairs := pairs + [("stickerId", IntegerToString(stickerId))];
    pairs := pairs + [("notificationDisabled", BooleanToString(notificationDisabled))];
    assert FormRequest(accessToken, pairs)
           == Describe(accessToken, Sticker(message, stickerPackageId, stickerId, notificationDisabled));
    responseBody := SendForm(accessToken, pairs, transport);
  }

  method SendSticker(accessToken: string, message: string, stickerPackageId: Int32, stickerId: Int32,
                     transport: Request -> Outcome)
    returns (responseBody: SentResponseBody?)
    ensures responseBody != null ==> fresh(responseBody)
    ensures ResultOf(responseBody)
            == MapResponse(transport(Describe(accessToken, Sticker(message, stickerPackageId, stickerId, false))))
  {
    responseBody := SendStickerWithFlag(accessToken, message, stickerPackageId, stickerId, false, transport);
  }

  method SendImageUrlWithFlag(accessToken: string, message: string, imageFullsize: string,
                              notificationDisabled: bool, transport: Request -> Outcome)
    returns (responseBody: SentResponseBody?)
    ensures responseBody != null ==> fresh(responseBody)
    ensures ResultOf(responseBody)
            == MapResponse(transport(Describe(accessToken, ImageUrl(message, imageFullsize, notificationDisabled))))
  {
    var pairs: seq<(string, string)> := [];
    pairs := pairs + [("message", message)];
    pairs := pairs + [("imageFullsize", imageFullsize)];
    pairs := pairs + [("notificationDisabled", BooleanToString(notificationDisabled))];
    assert FormRequest(accessToken, pairs) == Describe(accessToken, ImageUrl(message, imageFullsize, notificationDisabled));
    responseBody := SendForm(accessToken, pairs, transport);
  }

  method SendImageUrl(accessToken: string, message: string, imageFullsize: string,
                      transport: Request -> Outcome)
    returns (responseBody: SentResponseBody?)
    ensures responseBody != null ==> fresh(responseBody)
    ensures ResultOf(responseBody)
            == MapResponse(transport(Describe(accessToken, ImageUrl(message, imageFullsize, false))))
  {
    responseBody := SendImageUrlWithFlag(accessToken, message, imageFullsize, false, transport);
  }

  /** The multipart transport path, with its request built inline. */
  method SendImageFileWithFlag(accessToken: string, message: string, imageFile: FileRef,
                               notificationDisabled: bool, transport: Request -> Outcome)
    returns (responseBody: SentResponseBody?)
    ensures responseBody != null ==> fresh(responseBody)
    ensures ResultOf(responseBody)
            == MapResponse(transport(Describe(accessToken, ImageFile(message, imageFile, notificationDisabled))))
  {
    var parts: seq<Part> := [];
    parts := parts + [StringPart("message", message, MultipartFormData)];
    parts := parts + [FilePart("imageFile", imageFile, DefaultBinary)];
    parts := parts + [StringPart("notificationDisabled", BooleanToString(notificationDisabled), MultipartFormData)];
    var httpRequest := Post(ENDPOINT_SEND_NOTIFICATION, [], Multipart(parts));
    httpRequest := httpRequest.(headers := httpRequest.headers + [Header("Content-Type", MULTIPART_FORM_DATA)]);
    httpRequest := httpRequest.(headers := httpRequest.headers + [Header("Authorization", "Bearer " + accessToken)]);
    assert httpRequest == Describe(accessToken, ImageFile(message, imageFile, notificationDisabled));
    responseBody := Execute(httpRequest, transport);
  }

  method SendImageFile(accessToken: string, message: string, imageFile: FileRef,
                       transport: Request -> Outcome)
    returns (responseBody: SentResponseBody?)
    ensures responseBody != null ==> fresh(responseBody)
    ensures ResultOf(responseBody)
            == MapResponse(transport(Describe(accessToken, ImageFile(message, imageFile, false))))
  {
    responseBody := SendImageFileWithFlag(accessToken, message, imageFile, false, transport);
  }
}
