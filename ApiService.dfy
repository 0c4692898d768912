/** The front end's API service: how each call shapes its request (method,
    URL with its query string, JSON or multipart body) and how
    `handleResponse` turns a response into a fulfilled value or an error.
    The network itself is not modelled: a request is a value, and a response
    is an abstract record of `ok`, `status`, `statusText` and the body. */
module ApiService {

  import opened Wrappers
  import opened Text
  import opened ApiConfig
  import opened JsonData

  // ---------------------------------------------------------------------------
  // Requests

  /** A browser `File` as far as the model needs it. */
  datatype BrowserFile = BrowserFile(name: string, size: nat)

  datatype HttpMethod = Get | Post

  datatype RequestBody =
    | NoBody
    | JsonBody(json: Json)
    | FormData(field: string, file: BrowserFile)

  /** What `fetch` is called with (headers are left out). */
  datatype Request = Request(verb: HttpMethod, url: string, body: RequestBody)

  /** `JSON.stringify` of a number: `NaN` becomes `null`. */
  function NumberJson(n: JsNumber): (j: Json)
    ensures j == JNull <==> n.NaN?
    ensures n.Finite? ==> j == JNumber(n.value)
  {
    match n
    case Finite(v) => JNumber(v)
    case NaN => JNull
  }

  /** `password || null`: a missing or empty password is sent as `null`. */
  function PasswordOrNull(password: Option<string>): (j: Json)
    ensures j == JNull <==> (password.None? || password.value == "")
    ensures j != JNull ==> j == JString(password.value)
  {
    if password.Some? && password.value != "" then JString(password.value) else JNull
  }

  // ---------------------------------------------------------------------------
  // Request builders, one per exported call

  /** `Argon2HashParams`; the tab always sets both numbers, which may be `NaN`. */
  datatype Argon2HashParams = Argon2HashParams(payload: string, length: JsNumber, memoryCost: JsNumber)

  /** `BcryptHashParams`. */
  datatype BcryptHashParams = BcryptHashParams(payload: string, rounds: JsNumber)

  /** `HashLibParams`: the algorithm is whatever string the caller cast to `HashLibAlgorithm`. */
  datatype HashLibParams = HashLibParams(algorithm: string, payload: string)

  /** `GeneratePublicKeyParams`. */
  datatype GeneratePublicKeyParams = GeneratePublicKeyParams(privateKey: string, password: Option<string>)

  /** `getRandomToken`: a GET on the random-token endpoint, with no body. */
  function GetRandomToken(base: string): (r: Request)
    ensures r.verb == Get && r.url == EndpointUrl(base, RandomToken) && r.body == NoBody
  {
    Request(Get, EndpointUrl(base, RandomToken), NoBody)
  }

  /** `JSON.stringify(params)`, keys in the order the tab's object literal gives them. */
  function Argon2Json(p: Argon2HashParams): Json {
    JObject([("payload", JString(p.payload)), ("length", NumberJson(p.length)),
             ("memory_cost", NumberJson(p.memoryCost))])
  }

  /** `createArgon2Hash`: a POST whose JSON body carries the three parameters
      field by field as the tab passed them, an unparsable number as `null`. */
  function CreateArgon2Hash(base: string, p: Argon2HashParams): (r: Request)
    ensures r.verb == Post && r.url == EndpointUrl(base, Argon2Hash) && r.body.JsonBody?
    ensures Member(r.body.json, "payload") == Some(JString(p.payload))
    ensures Member(r.body.json, "length") == Some(NumberJson(p.length))
    ensures Member(r.body.json, "memory_cost") == Some(NumberJson(p.memoryCost))
  {
    assert "payload"[0] != "length"[0] && "payload"[0] != "memory_cost"[0] && "length"[0] != "memory_cost"[0];
    MembersOfThree("payload", JString(p.payload), "length", NumberJson(p.length), "memory_cost", NumberJson(p.memoryCost));
    Request(Post, EndpointUrl(base, Argon2Hash), JsonBody(Argon2Json(p)))
  }

  function BcryptJson(p: BcryptHashParams): Json {
    JObject([("payload", JString(p.payload)), ("rounds", NumberJson(p.rounds))])
  }

  /** `createBcryptHash`: a POST whose JSON body carries payload and rounds as passed. */
  function CreateBcryptHash(base: string, p: BcryptHashParams): (r: Request)
    ensures r.verb == Post && r.url == EndpointUrl(base, BcryptHash) && r.body.JsonBody?
    ensures Member(r.body.json, "payload") == Some(JString(p.payload))
    ensures Member(r.body.json, "rounds") == Some(NumberJson(p.rounds))
  {
    assert "payload"[0] != "rounds"[0];
    MembersOfTwo("payload", JString(p.payload), "rounds", NumberJson(p.rounds));
    Request(Post, EndpointUrl(base, BcryptHash), JsonBody(BcryptJson(p)))
  }

  /** `createHashLibHash`: the algorithm travels only in the query; the body holds the payload alone. */
  function CreateHashLibHash(base: string, p: HashLibParams): (r: Request)
    ensures r.verb == Post && r.url == EndpointUrl(base, HashLib) + "?algorithm=" + p.algorithm
    ensures r.body.JsonBody? && Member(r.body.json, "payload") == Some(JString(p.payload))
    ensures r.body.JsonBody? && Member(r.body.json, "algorithm").None?
  {
    var one := [("payload", JString(p.payload))];
    assert "payload"[0] != "algorithm"[0];
    assert one[..0] == [] && LastMember(one, "algorithm") == LastMember([], "algorithm");
    Request(Post, EndpointUrl(base, HashLib) + "?algorithm=" + p.algorithm, JsonBody(JObject(one)))
  }

  /** `generateRsaKey`: the key size travels only in the query; the body is
      `{password: password || null}`. */
  function GenerateRsaKey(base: string, keySize: RsaKeySizeType, password: Option<string>): (r: Request)
    ensures r.verb == Post && r.url == EndpointUrl(base, GenRsaPrivateKey) + "?key_size=" + KeySizeName(keySize)
    ensures r.body.JsonBody? && Member(r.body.json, "password") == Some(PasswordOrNull(password))
    ensures r.body.JsonBody? && Member(r.body.json, "key_size").None?
  {
    var one := [("password", PasswordOrNull(password))];
    assert "password"[0] != "key_size"[0];
    assert one[..0] == [] && LastMember(one, "key_size") == LastMember([], "key_size");
    Request(Post, EndpointUrl(base, GenRsaPrivateKey) + "?key_size=" + KeySizeName(keySize), JsonBody(JObject(one)))
  }

  /** `generateEd25519Key`: a POST of `{password: password || null}` to the bare endpoint. */
  function GenerateEd25519Key(base: string, password: Option<string>): (r: Request)
    ensures r.verb == Post && r.url == EndpointUrl(base, GenEd25519PrivateKey)
    ensures r.body.JsonBody? && Member(r.body.json, "password") == Some(PasswordOrNull(password))
  {
    Request(Post, EndpointUrl(base, GenEd25519PrivateKey),
            JsonBody(JObject([("password", PasswordOrNull(password))])))
  }

  /** `generatePublicKey`: a POST of the private key and `password || null`. */
  function GeneratePublicKey(base: string, p: GeneratePublicKeyParams): (r: Request)
    ensures r.verb == Post && r.url == EndpointUrl(base, GenPublicKey) && r.body.JsonBody?
    ensures Member(r.body.json, "private_key") == Some(JString(p.privateKey))
    ensures Member(r.body.json, "password") == Some(PasswordOrNull(p.password))
  {
    assert "private_key"[1] != "password"[1];
    MembersOfTwo("private_key", JString(p.privateKey), "password", PasswordOrNull(p.password));
    Request(Post, EndpointUrl(base, GenPublicKey),
            JsonBody(JObject([("private_key", JString(p.privateKey)), ("password", PasswordOrNull(p.password))])))
  }

  /** `getFileChecksum`: the algorithm travels in the query; the file in the multipart field `file`. */
  function GetFileChecksum(base: string, file: BrowserFile, algorithm: HashLibAlgorithm): (r: Request)
    ensures r.verb == Post && r.url == EndpointUrl(base, FileSum) + "?algorithm=" + AlgorithmName(algorithm)
    ensures r.body == FormData("file", file)
  {
    Request(Post, EndpointUrl(base, FileSum) + "?algorithm=" + AlgorithmName(algorithm),
            FormData("file", file))
  }

  /** The Ed25519 and public-key requests carry no query string. */
  lemma NoQueryWithoutSelector(base: string, pw: Option<string>, g: GeneratePublicKeyParams)
    requires '?' !in base
    ensures '?' !in GenerateEd25519Key(base, pw).url
    ensures '?' !in GeneratePublicKey(base, g).url
  {
    EndpointNamesHaveNoQuery(GenEd25519PrivateKey);
    EndpointNamesHaveNoQuery(GenPublicKey);
  }

  // ---------------------------------------------------------------------------
  // Responses

  /** What `response.json()` makes of the body: a JSON value, or a parse error with its message. */
  datatype ResponseBody = Parsed(json: Json) | Unparsable(reason: string)

  /** The abstract `Response`: `ok`, `status`, `statusText` and the body. */
  datatype Response = Response(ok: bool, status: nat, statusText: string, body: ResponseBody)

  /** `API Error: ${response.status} ${response.statusText}`. */
  function ApiErrorMessage(status: nat, statusText: string): string {
    "API Error: " + NatToString(status) + " " + statusText
  }

  /** `errorData.detail?.[0]?.msg` when it is a non-empty string. A `msg` of
      another kind counts as absent here; FastAPI's validation errors always
      carry a string `msg`. */
  function DetailMessage(errorData: Json): Option<string> {
    match Member(errorData, "detail")
    case Some(JArray(items)) =>
      if |items| > 0 then
        match Member(items[0], "msg")
        case Some(JString(m)) => if m != "" then Some(m) else None
        case _ => None
      else None
    case _ => None
  }

  /** The message the `throw` at lines 10-14 builds:
      `errorData.detail?.[0]?.msg || JSON.stringify(errorData) || <generic>`.
      `JSON.stringify` is a library call and is passed in. */
  function ThrownMessage(r: Response, errorData: Json, stringify: Json -> string): string {
    match DetailMessage(errorData)
    case Some(m) => m
    case None =>
      if stringify(errorData) != "" then stringify(errorData) else ApiErrorMessage(r.status, r.statusText)
  }

  /** The `try` block at lines 8-14 on a non-OK response. It never completes:
      `response.json()` rejects on an unparsable body, and otherwise line 10 throws. */
  function TryBlock(r: Response, stringify: Json -> string): (thrown: Settled<Json>)
    ensures thrown.Rejected?
  {
    match r.body
    case Unparsable(reason) => Rejected(reason)
    case Parsed(errorData) => Rejected(ThrownMessage(r, errorData, stringify))
  }

  /** `handleResponse` as written. On a non-OK response the `try` block always
      throws and the `catch` at lines 15-16 replaces whatever it threw with the
      generic message; on an OK response the parsed body is returned. */
  function HandleResponse(r: Response): (s: Settled<Json>)
    ensures !r.ok ==> s == Rejected(ApiErrorMessage(r.status, r.statusText))
    ensures r.ok && r.body.Parsed? ==> s == Fulfilled(r.body.json)
    ensures r.ok && r.body.Unparsable? ==> s == Rejected(r.body.reason)
  {
    if !r.ok then Rejected(ApiErrorMessage(r.status, r.statusText))
    else
      match r.body
      case Parsed(j) => Fulfilled(j)
      case Unparsable(reason) => Rejected(reason)
  }

  /** The generic message starts with `API Error: ` and the status code reads
      back from what follows it, whatever the status text. */
  lemma ApiErrorStatusReadsBack(status: nat, statusText: string)
    ensures |ApiErrorMessage(status, statusText)| > 11
    ensures ApiErrorMessage(status, statusText)[..11] == "API Error: "
    ensures ParseInt(ApiErrorMessage(status, statusText)[11..]) == Finite(status)
  {
    var m := ApiErrorMessage(status, statusText);
    assert m[11..] == NatToString(status) + (" " + statusText);
    ParseIntOfNatToString(status, " " + statusText);
  }

  /** The error a non-OK response produces depends on its status and status
      text only: the body, and so any structured detail in it, is never seen. */
  lemma NonOkIgnoresBody(r1: Response, r2: Response)
    requires !r1.ok && !r2.ok && r1.status == r2.status && r1.statusText == r2.statusText
    ensures HandleResponse(r1) == HandleResponse(r2)
    ensures HandleResponse(r1) == Rejected(ApiErrorMessage(r1.status, r1.statusText))
  {
  }

  /** `handleResponse` as the code at lines 8-14 evidently intends it: the
      message the `try` block builds reaches the caller, and only an
      unparsable body falls back to the generic message. */
  function HandleResponseIntended(r: Response, stringify: Json -> string): (s: Settled<Json>)
    ensures r.ok ==> s == HandleResponse(r)
    ensures !r.ok && r.body.Parsed? && DetailMessage(r.body.json).Some? ==>
              s == Rejected(DetailMessage(r.body.json).value)
    ensures !r.ok && r.body.Unparsable? ==> s == Rejected(ApiErrorMessage(r.status, r.statusText))
    ensures !r.ok ==> s.Rejected? && s.message != ""
  {
    if !r.ok then
      match r.body
      case Unparsable(_) => Rejected(ApiErrorMessage(r.status, r.statusText))
      case Parsed(_) => TryBlock(r, stringify)
    else HandleResponse(r)
  }

  /** A FastAPI validation error (status 422 with `detail[0].msg`) shows the
      discrepancy: as written the caller sees only the generic message. */
  lemma StructuredDetailIsDiscarded(stringify: Json -> string)
    ensures var detail := JObject([("detail", JArray([JObject([("msg", JString("Input should be a valid integer"))])]))]);
            var r := Response(false, 422, "Unprocessable Entity", Parsed(detail));
            && HandleResponse(r) == Rejected("API Error: 422 Unprocessable Entity")
            && HandleResponseIntended(r, stringify) == Rejected("Input should be a valid integer")
  {
    var detail := JObject([("detail", JArray([JObject([("msg", JString("Input should be a valid integer"))])]))]);
    assert Member(detail, "detail") == Some(JArray([JObject([("msg", JString("Input should be a valid integer"))])]));
    Status422();
  }

  lemma Status422()
    ensures ApiErrorMessage(422, "Unprocessable Entity") == "API Error: 422 Unprocessable Entity"
  {
    Numeral422();
  }

  lemma Numeral422()
    ensures NatToString(422) == "422"
  {
    assert DigitChar(4) == '4' && DigitChar(2) == '2';
    assert NatToString(42) == NatToString(4) + [DigitChar(2)];
    assert NatToString(422) == NatToString(42) + [DigitChar(2)];
  }
}
