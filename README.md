# LINE Notify client — Dafny model

This project models the client library for the LINE Notify service
(`me.line.notify`). The library has eight public `send` overloads. Each one:

- builds one HTTP POST to `https://notify-api.line.me/api/notify`;
- authenticates it with an `Authorization: Bearer <token>` header (section 2.1 of RFC 6750);
- sends the message, plus a sticker, an image URL or an image file, as a URL-encoded form or a multipart form;
- turns what comes back into a `SentResponseBody`.

The result carries the service's `status` and `message`. When the outcome is
unknown, its status is the sentinel `Integer.MIN_VALUE`.

The model has three modules:

- `Java` (`java.dfy`) models the pieces of java.lang the client uses:
  - a nullable reference, as `Option`;
  - the 32-bit `int`, as `Int32`;
  - `Boolean.toString`;
  - `Integer.toString`, with `Integer.parseInt` as its inverse, and the round trip between the two proved.
- `SentResponse` (`sent_response_body.dfy`) models the mutable result bean as a class. It has two fields, two constructors and two setters. The getters are the field reads.
- `LineNotify` (`line_notify_api.dfy`) models the client itself:
  - `Describe` is the request each flagged overload builds, as a pure function of a `Variant` (`Text | Sticker | ImageUrl | ImageFile`, each with its flag). The request holds the endpoint, the headers in the order they are set, and the body as an ordered list of named fields.
  - `MapResponse` is the status classification and its fallback.
  - The eight overloads are methods. They build their field lists by successive appends, as the source does.
  - The private URL-encoded path is `SendForm`. The multipart overload builds its request inline. Both run the same `Execute` method, which is proved equal to `MapResponse`.

The transport is the parameter `transport: Request -> Outcome`. It stands for
the asynchronous HTTP client and the JSON decoder. An `Outcome` is one of:

- one of the three exceptions `future.get` raises while waiting for the response (`Threw`): `ExecutionException`, `CancellationException` or `InterruptedException`;
- an HTTP response (`Responded`). It has three parts:
  - the status code;
  - the body, which either decoded into a `Fields` value, decoded as the JSON literal `null`, or raised an `IOException` while being read or decoded;
  - whether closing the client afterwards threw.

The `IOException`s the transport paths catch come only from reading the body and from closing the client. They are the last two parts of a response.

A send operation returns a reference that may be null. In the model, `None` stands for that null.

## Model

| member | source | states |
|---|---|---|
| `SentResponse.SentResponseBody.constructor` | src/main/java/me/line/notify/SentResponseBody.java:21-23 | the no-argument constructor sets `status` to `Integer.MIN_VALUE` and leaves `message` null |
| `SentResponse.SentResponseBody.AllArgs` | src/main/java/me/line/notify/SentResponseBody.java:11-19 | the all-arguments constructor stores exactly the given `status` and `message` |
| `SentResponse.SentResponseBody.SetStatus` | src/main/java/me/line/notify/SentResponseBody.java:13-17 | after setting `status`, reading it gives the new value; `message` is unchanged |
| `SentResponse.SentResponseBody.SetMessage` | src/main/java/me/line/notify/SentResponseBody.java:13-19 | after setting `message`, reading it gives the new value; `status` is unchanged |
| `SentResponse.SentinelIsLeast` | src/main/java/me/line/notify/SentResponseBody.java:17-22 | the sentinel status is -2147483648, the least 32-bit `int`, so it is at most every status the result can hold |
| `Java.BooleanToString` | src/main/java/me/line/notify/LineNotifyAPI.java:161-166 | the flag is written as exactly `"true"` or `"false"`, and it is `"true"` exactly when the flag is set |
| `Java.NatToDigits` | src/main/java/me/line/notify/LineNotifyAPI.java:232-243 | a magnitude is written as a non-empty string of decimal digits with no leading zero |
| `Java.IntegerToString` | src/main/java/me/line/notify/LineNotifyAPI.java:232-243 | `Integer.toString` gives a non-empty string that starts with `-` exactly for negative numbers and is otherwise all digits |
| `Java.ParseInt` | src/main/java/me/line/notify/LineNotifyAPI.java:232-243 | a string that parses starts with a digit or a sign; the parsed value is always inside the 32-bit range |
| `Java.DigitsValueOfNatToDigits` | src/main/java/me/line/notify/LineNotifyAPI.java:232-243 | the digits written for a number denote that number again |
| `Java.ParseIntRoundTrip` | src/main/java/me/line/notify/LineNotifyAPI.java:232-243 | parsing what `Integer.toString` wrote gives back the original `int`, negative values included |
| `LineNotify.Describe` | src/main/java/me/line/notify/LineNotifyAPI.java:36-421 | every variant posts to the one endpoint with `Authorization: Bearer <token>`; the content type is `multipart/form-data` for the file variant and `application/x-www-form-urlencoded` for the others, and the body is multipart exactly for the file variant; the field names are, in order and with nothing else, `message, notificationDisabled` (text), `message, stickerPackageId, stickerId, notificationDisabled` (sticker), `message, imageFullsize, notificationDisabled` (image URL), `message, imageFile, notificationDisabled` (file); string parts use `MULTIPART_FORM_DATA` and the file part `DEFAULT_BINARY` |
| `LineNotify.FieldNamesDistinct` | src/main/java/me/line/notify/LineNotifyAPI.java:387-409 | no variant sends the same field name twice |
| `LineNotify.FieldValues` | src/main/java/me/line/notify/LineNotifyAPI.java:225-249 | each named field carries its argument: the message as given, the flag as its word, the sticker ids in decimal, the image URL as given, and the image file in the `imageFile` part |
| `LineNotify.NotificationDisabledIsLiteral` | src/main/java/me/line/notify/LineNotifyAPI.java:161-166 | `notificationDisabled` is always present and is exactly `"true"` or `"false"`, `"true"` if and only if the flag is set |
| `LineNotify.StickerIdsRoundTrip` | src/main/java/me/line/notify/LineNotifyAPI.java:232-243 | the `stickerPackageId` and `stickerId` fields parse back to the ints the caller gave |
| `LineNotify.MapResponse` | src/main/java/me/line/notify/LineNotifyAPI.java:38-98 | a result other than the default object (a null reference included) comes only from a body decoded after a classified HTTP status, and it is what the decoder produced |
| `LineNotify.ParsableStatusCodes` | src/main/java/me/line/notify/LineNotifyAPI.java:65-81 | the statuses classified as parsable are exactly 200, 400, 401 and 500 |
| `LineNotify.SentinelNeverClassified` | src/main/java/me/line/notify/SentResponseBody.java:21-23 | the sentinel status is not one of the classified HTTP statuses |
| `LineNotify.ClassifiedStatusYieldsBody` | src/main/java/me/line/notify/LineNotifyAPI.java:82-87 | for a classified status, what the decoder produced is returned exactly; the JSON literal `null` makes the call return null |
| `LineNotify.UnclassifiedStatusYieldsDefault` | src/main/java/me/line/notify/LineNotifyAPI.java:78-81 | for any other status, the default result is returned whatever the body holds |
| `LineNotify.UndecodableYieldsDefault` | src/main/java/me/line/notify/LineNotifyAPI.java:83-95 | a body that fails to decode is caught as an `IOException`, and the default result is returned |
| `LineNotify.FailureYieldsDefault` | src/main/java/me/line/notify/LineNotifyAPI.java:57-97 | each of the three exceptions `future.get` raises (execution, cancellation, interruption) is caught and yields a default object with status `Integer.MIN_VALUE` and no message; none of them escapes |
| `LineNotify.CloseFailureKeepsResult` | src/main/java/me/line/notify/LineNotifyAPI.java:82-97 | an `IOException` from closing the client, thrown after the body was handled, is caught without resetting the result, so the call returns what it would have returned anyway |
| `LineNotify.BodyReadIffParsable` | src/main/java/me/line/notify/LineNotifyAPI.java:62-87 | the response body affects the result if and only if the HTTP status is 200, 400, 401 or 500 |
| `LineNotify.Execute` | src/main/java/me/line/notify/LineNotifyAPI.java:62-87 | the shared transport code returns null or a fresh object, as `MapResponse` of the outcome of the request says |
| `LineNotify.SendForm` | src/main/java/me/line/notify/LineNotifyAPI.java:38-98 | the URL-encoded path sends the form request for the token and fields, and its result is `MapResponse` of the outcome |
| `LineNotify.SendTextWithFlag` | src/main/java/me/line/notify/LineNotifyAPI.java:148-177 | the result is `MapResponse` of the outcome of the request `Describe` gives for `Text` |
| `LineNotify.SendText` | src/main/java/me/line/notify/LineNotifyAPI.java:123-129 | equals the flagged text overload with `notificationDisabled = false` |
| `LineNotify.SendStickerWithFlag` | src/main/java/me/line/notify/LineNotifyAPI.java:222-260 | the result is `MapResponse` of the outcome of the request `Describe` gives for `Sticker` |
| `LineNotify.SendSticker` | src/main/java/me/line/notify/LineNotifyAPI.java:193-201 | equals the flagged sticker overload with `notificationDisabled = false` |
| `LineNotify.SendImageUrlWithFlag` | src/main/java/me/line/notify/LineNotifyAPI.java:302-334 | the result is `MapResponse` of the outcome of the request `Describe` gives for `ImageUrl` |
| `LineNotify.SendImageUrl` | src/main/java/me/line/notify/LineNotifyAPI.java:275-282 | equals the flagged image-URL overload with `notificationDisabled = false` |
| `LineNotify.SendImageFileWithFlag` | src/main/java/me/line/notify/LineNotifyAPI.java:379-463 | the multipart path sends the request `Describe` gives for `ImageFile`, and its result goes through the same `MapResponse` as the URL-encoded path |
| `LineNotify.SendImageFile` | src/main/java/me/line/notify/LineNotifyAPI.java:351-358 | equals the flagged image-file overload with `notificationDisabled = false` |

## Left out

- HTTP transport lifecycle (`createDefault`, `start`, `execute`, `future.get`, `close`): network I/O and asynchronous waiting. The transport is the `transport` parameter. The model does not count requests or client releases. On success the source closes the client explicitly and then again when the try-with-resources block ends. An `IOException` from either close is a single flag of the outcome (`closeThrew`), and the model does not tell the two closes apart.
- Exceptions the transport paths do not catch: the model has only the caught ones, the three from `future.get` and the `IOException`s from reading the body and from closing the client. Any other unchecked exception would propagate to the caller. A null `message` in the text overload throws `NullPointerException` at `message.getBytes`. A null token is formatted as `Bearer null`. In the model, strings are never null.
- Wire encoding: URL-encoding by `UrlEncodedFormEntity` and multipart framing (`BROWSER_COMPATIBLE` mode, boundaries, part charsets) are library code. Bodies are modelled as ordered name/value lists. Multipart parts record only the name of their `ContentType` constant. The explicit `Content-Type: multipart/form-data` header is modelled as set, without a boundary parameter, as the source sets it.
- JSON decoding by Jackson: abstracted as `Decoded(Option<Fields>) | Undecodable`. `Decoded(None)` is the JSON literal `null`. Which JSON keys fill which property, and the defaults kept for absent keys, belong to the decoder. The unused pretty-printing writer and the `@JsonInclude(NON_NULL)` serialization of the result are left out as well.
- UTF-8 re-encoding of the text variant's message: modelled as the identity. Dafny characters are Unicode scalar values, so the round trip through UTF-8 changes nothing. A Java string with an unpaired surrogate, which the re-encoding would alter, cannot be represented.
- The content of an image file: a file is an opaque `FileRef`.
- Logging calls: side effects only.
- The documented limits (1000 characters, 2048×2048 JPEG, hourly uploads): the code never checks them, so the model has no precondition for them.
- The `new SentResponseBody()` that the flagged URL-encoded overloads allocate and then overwrite at once: it is not modelled.
- `Java.ParseInt`: accepts only ASCII digits. `Integer.parseInt` also accepts other Unicode decimal digits. It serves only as the inverse that shows the sticker ids can be read back.
- Immutability of the result after construction: the source class has public setters, so the model keeps the object mutable.
