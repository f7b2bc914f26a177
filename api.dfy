/**
 * What travels between the client and the SRFax web service: the request a
 * call hands to the transport, the raw reply, the decoded JSON value, and the
 * errors a call can end in. The transport and the two library decoders
 * (`json_decode`, `base64_decode`) are not modelled; they are supplied as
 * functions in a `Wire`.
 */
module Api {
  import opened Wrappers
  import opened Php

  /** A request's parameters, keyed by the API's field names. */
  type Params = map<string, string>

  /** A value produced by `json_decode` (objects decode to `stdClass`, arrays to PHP arrays). */
  datatype Json =
    | JNull
    | JBool(b: bool)
    | JNum(repr: string)          // a number, held as PHP's string form of it
    | JStr(s: string)
    | JArr(items: seq<Json>)
    | JObj(fields: map<string, Json>)

  /** One HTTP POST: the endpoint and the parameters that `json_encode` turns into its body. */
  datatype Request = Request(url: string, params: Params)

  /** What cURL reports for one POST: a transport error, or the body it read back. */
  datatype Exchange = TransportFailure(detail: string) | Body(text: string)

  /** The collaborators a call cannot see: the network, `json_decode` and `base64_decode`. */
  datatype Wire = Wire(send: Request -> Exchange, jsonDecode: string -> Json, base64Decode: string -> string)

  datatype Error =
      // rejected arguments; nothing is sent
    | BadRecipient
    | BadSenderFax
    | BadSenderEmail
    | BadFaxType
    | BadDirection
    | BadViewed
    | MissingDocument
      // the exchange with the service
    | CurlError(detail: string)
    | EmptyResponse
    | Unparseable
    | ApiFailure(result: Json)
      // a retrieved `Result` that `base64_decode` refuses to take
    | NotAString(value: Json)
  {
    predicate IsValidation() {
      BadRecipient? || BadSenderFax? || BadSenderEmail? || BadFaxType? || BadDirection? || BadViewed? || MissingDocument?
    }

    predicate IsReply() {
      CurlError? || EmptyResponse? || Unparseable? || ApiFailure?
    }
  }

  /** PHP's string conversion of a scalar or null; arrays and objects have none. */
  function ScalarString(j: Json): (r: Option<string>)
    ensures r.Some? <==> !(j.JArr? || j.JObj?)
    ensures j.JStr? ==> r == Some(j.s)
    ensures j.JNull? ==> r == Some("")
  {
    match j
    case JNull => Some("")
    case JBool(b) => Some(if b then "1" else "")
    case JNum(repr) => Some(repr)
    case JStr(s) => Some(s)
    case _ => None
  }

  /** `t` is the tail of `m`. */
  predicate EndsWith(m: string, t: string) {
    |t| <= |m| && m[|m| - |t|..] == t
  }

  /** A fixed text followed by a variable one. */
  function Followed(prefix: string, t: string): (m: string)
    ensures EndsWith(m, t)
  {
    prefix + t
  }

  /**
   * The text `getMessage()` gives for each failure: a transport error carries
   * cURL's own text at its end, and a refused call the service's `Result`.
   */
  function Message(e: Error): (m: string)
    ensures e.CurlError? ==> EndsWith(m, e.detail)
    ensures e.ApiFailure? && ScalarString(e.result).Some? ==> EndsWith(m, ScalarString(e.result).value)
    ensures e.ApiFailure? && e.result.JArr? ==> EndsWith(m, "Array")
  {
    match e
    case CurlError(detail) => Followed("cURL error: ", detail)
    case ApiFailure(result) =>
      if ScalarString(result).Some? then Followed("API Call returned error: ", ScalarString(result).value)
      else if result.JArr? then Followed("API Call returned error: ", "Array")
      else "Object of class stdClass could not be converted to string"
    case _ => FixedMessage(e)
  }

  /** The texts of the failures that carry nothing from the service or the transport. */
  function FixedMessage(e: Error): string
    requires !e.CurlError? && !e.ApiFailure?
  {
    match e
    case BadRecipient => "Invalid recipient fax number."
    case BadSenderFax => "Invalid sender fax number.  Must be 10 digits"
    case BadSenderEmail => "Invalid sender email address."
    case BadFaxType => "Invalid fax type.  Must be 'SINGLE' or 'BROADCAST'."
    case BadDirection => "Invalid direction, must be IN or OUT."
    case BadViewed => "Invalid viewed option, must be Y or N."
    case MissingDocument => "You must pass either fax_details_id or fax_filename."
    case EmptyResponse => "Empty response returned from SRFax API."
    case Unparseable => "Failed to parse response as JSON."
    case NotAString(value) =>
      "base64_decode(): Argument #1 ($string) must be of type string, "
        + (if value.JArr? then "array" else "stdClass") + " given"
  }

  /** `$obj->key`: the field of a decoded object, or null for a missing field or a non-object. */
  function Member(v: Json, key: string): Json {
    if v.JObj? && key in v.fields then v.fields[key] else JNull
  }

  /**
   * PHP 8's loose comparison `$status == 'Success'`: only the string itself
   * and `true` compare equal to it.
   */
  predicate StatusIsSuccess(status: Json)
    ensures StatusIsSuccess(status) <==> status == JStr("Success") || status == JBool(true)
  {
    match status
    case JStr(s) => s == "Success"
    case JBool(b) => b          // a non-empty string is loosely equal to true
    case _ => false             // null, numbers, arrays and objects never equal 'Success'
  }

  /**
   * The reply handling of `_call`: a transport error, an empty body (`""` or
   * `"0"`) and a body `json_decode` maps to null all fail; in raw mode the
   * decoded reply is returned whatever its Status; otherwise a successful
   * Status yields `Result` and any other Status fails carrying `Result`.
   */
  function Interpret(reply: Exchange, jsonDecode: string -> Json, raw: bool): (r: Result<Json, Error>)
    ensures r.Failure? ==> r.error.IsReply()
    ensures r.Failure? && r.error.ApiFailure? ==> !raw
    ensures reply.TransportFailure? ==> r == Failure(CurlError(reply.detail))
    ensures r.Success? ==> reply.Body? && !IsEmpty(reply.text) && jsonDecode(reply.text) != JNull
  {
    match reply
    case TransportFailure(detail) => Failure(CurlError(detail))
    case Body(text) =>
      if IsEmpty(text) then Failure(EmptyResponse)
      else
        var decoded := jsonDecode(text);
        if decoded == JNull then Failure(Unparseable)
        else if raw then Success(decoded)
        else if StatusIsSuccess(Member(decoded, "Status")) then Success(Member(decoded, "Result"))
        else Failure(ApiFailure(Member(decoded, "Result")))
  }

  /** An empty body is a protocol error in both modes, whatever the decoder. */
  lemma EmptyBodyFails(text: string, jsonDecode: string -> Json, raw: bool)
    requires IsEmpty(text)
    ensures Interpret(Body(text), jsonDecode, raw) == Failure(EmptyResponse)
  {
  }

  /** Raw mode hands back the whole decoded reply exactly when the body decodes. */
  lemma RawReturnsDecodedReply(text: string, jsonDecode: string -> Json)
    ensures Interpret(Body(text), jsonDecode, true).Success?
        <==> !IsEmpty(text) && jsonDecode(text) != JNull
    ensures Interpret(Body(text), jsonDecode, true).Success?
        ==> Interpret(Body(text), jsonDecode, true).value == jsonDecode(text)
  {
  }

  /**
   * The unwrapped reply is the raw reply's `Result` when its Status is
   * successful, the same failure when the raw reply fails, and an ApiFailure
   * carrying `Result` otherwise.
   */
  lemma UnwrappedAgreesWithRaw(reply: Exchange, jsonDecode: string -> Json)
    ensures var whole := Interpret(reply, jsonDecode, true);
            var unwrapped := Interpret(reply, jsonDecode, false);
            && (whole.Failure? ==> unwrapped == whole)
            && (whole.Success? && StatusIsSuccess(Member(whole.value, "Status")) ==>
                  unwrapped == Success(Member(whole.value, "Result")))
            && (whole.Success? && !StatusIsSuccess(Member(whole.value, "Status")) ==>
                  unwrapped == Failure(ApiFailure(Member(whole.value, "Result"))))
  {
  }

  /**
   * A decoded reply that is not an object, or is an object without a Status,
   * fails outside raw mode, carrying its `Result` (null when it has none).
   */
  lemma ReplyWithoutStatusFails(text: string, jsonDecode: string -> Json)
    requires !IsEmpty(text) && jsonDecode(text) != JNull
    requires !(jsonDecode(text).JObj? && "Status" in jsonDecode(text).fields)
    ensures var d := jsonDecode(text);
            Interpret(Body(text), jsonDecode, false)
              == Failure(ApiFailure(if d.JObj? && "Result" in d.fields then d.fields["Result"] else JNull))
  {
  }
}
