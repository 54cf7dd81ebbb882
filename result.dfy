/** The wrapper around one OpenTSDB response: its status, its parsed payload,
    the payload's element count, and the error message an error payload
    carries. */
module Results {
  import opened Ruby

  /** A parsed JSON value. */
  datatype Json =
    | JNull
    | JBool(b: bool)
    | JNum(n: int)
    | JStr(s: string)
    | JArr(items: seq<Json>)
    | JObj(fields: map<string, Json>)

  /** What JSON.parse yields for a response body: an array (of series) or an
      object (an error description). */
  datatype Payload = PArray(items: seq<Json>) | PObject(fields: map<string, Json>)

  /** A response from the HTTP connection, its body already parsed. */
  datatype Response = Response(status: int, body: Payload)

  /** The fields of a Result. errorMessage is JNull when it was never set. */
  datatype Result = Result(status: int, length: nat, results: Payload, errorMessage: Json)

  /** errors?: the decimal text of the status does not start with '2'. */
  predicate Errors(status: int) {
    var t := DecimalText(status);
    !(|t| > 0 && t[0] == '2')
  }

  /** On three-digit status codes the textual test is exactly "not in the
      2xx class" of HTTP. */
  lemma ErrorsIffNot2xx(status: int)
    requires 100 <= status <= 999
    ensures Errors(status) <==> !(200 <= status < 300)
  {
    LeadingDigit(status);
    assert DigitChar(status / 100) == '2' <==> status / 100 == 2;
  }

  /** The textual test also accepts numbers that are no HTTP status, such as
      2 and 2000, and rejects negative ones. */
  lemma ErrorsOnOtherNumbers()
    ensures !Errors(2) && !Errors(2000) && Errors(-200)
  {
    assert NatText(2) == "2";
    assert NatText(2000)[0] == NatText(200)[0] == NatText(20)[0] == NatText(2)[0];
  }

  /** @results.length: the number of elements of an array, or of keys of an
      object. */
  function PayloadLength(p: Payload): nat {
    match p
    case PArray(items) => |items|
    case PObject(fields) => |fields|
  }

  /** s contains key as a substring. */
  predicate Contains(s: string, key: string)
    decreases |s|
  {
    key <= s || (s != [] && Contains(s[1..], key))
  }

  /** v[key] for a string key, as Ruby evaluates it on each kind of value:
      a Hash looks the key up (nil when absent), a String returns the key when
      it occurs in it (nil otherwise), and the others raise. */
  function Index(v: Json, key: string): Try<Json> {
    match v
    case JObj(fields) => Ok(if key in fields then fields[key] else JNull)
    case JStr(s) => Ok(if Contains(s, key) then JStr(key) else JNull)
    case JArr(_) => Raised(TypeError("no implicit conversion of String into Integer"))
    case JNum(_) => Raised(TypeError("no implicit conversion of String into Integer"))
    case JBool(_) => Raised(NoMethodError("undefined method `[]'"))
    case JNull => Raised(NoMethodError("undefined method `[]' for nil"))
  }

  /** @results['error']['message'] */
  function ErrorMessage(p: Payload): Try<Json> {
    match p
    case PArray(_) => Raised(TypeError("no implicit conversion of String into Integer"))
    case PObject(fields) => Index(if "error" in fields then fields["error"] else JNull, "message")
  }

  /** Result.new(response): stores the status, the payload and its length;
      when the status is an error and the payload is not empty, also
      extracts the message, which raises when the payload has no such
      path. */
  function NewResult(response: Response): (r: Try<Result>)
    ensures r.Ok? ==> r.value.status == response.status && r.value.results == response.body
    ensures r.Ok? ==> r.value.length == PayloadLength(response.body)
    ensures r.Ok? && r.value.errorMessage != JNull ==> Errors(r.value.status) && r.value.length > 0
    ensures !Errors(response.status) || PayloadLength(response.body) == 0 ==> r.Ok? && r.value.errorMessage == JNull
    ensures Errors(response.status) && response.body.PArray? && response.body.items != [] ==> r.Raised?
    ensures Errors(response.status) && response.body.PObject? && "error" in response.body.fields &&
            response.body.fields["error"].JObj? ==>
              r.Ok? && r.value.errorMessage ==
                (var e := response.body.fields["error"].fields; if "message" in e then e["message"] else JNull)
  {
    var length := PayloadLength(response.body);
    if Errors(response.status) && length > 0 then
      match ErrorMessage(response.body)
      case Raised(e) => Raised(e)
      case Ok(message) => Ok(Result(response.status, length, response.body, message))
    else
      Ok(Result(response.status, length, response.body, JNull))
  }

  /** The error payload of a 500 response yields its message. */
  lemma ErrorMessageExample()
    ensures var body := PObject(map["error" := JObj(map["code" := JNum(500), "message" := JStr("No such name for 'metrics': 'mtest'")])]);
      var r := NewResult(Response(500, body));
      r.Ok? && Errors(r.value.status) && r.value.errorMessage == JStr("No such name for 'metrics': 'mtest'")
  {
    ErrorsIffNot2xx(500);
  }

  /** An empty array with status 200 is a successful result of length 0. */
  lemma EmptyResultExample()
    ensures NewResult(Response(200, PArray([]))) == Ok(Result(200, 0, PArray([]), JNull))
  {
    ErrorsIffNot2xx(200);
  }
}
