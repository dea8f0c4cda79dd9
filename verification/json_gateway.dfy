/**
 * The JSON backend gateway of the video revision (src/app/actions.ts):
 * `makeBackendRequest`, the prompt-suggestion action with its fallback, and
 * the image, edit and video actions that project one field of the reply.
 *
 * `fetch` is an input: the reply it produced, or the error it threw; what
 * `response.json()` parsed is part of the reply (`None` when it threw).
 */
module JsonGateway {
  import opened Common

  datatype Json =
    | JNull
    | JBool(b: bool)
    | JNum(n: int)
    | JStr(s: string)
    | JArr(items: seq<Json>)
    | JObj(fields: map<string, Json>)

  /** JavaScript truthiness of a parsed JSON value. */
  predicate JsonTruthy(j: Json)
  {
    match j
    case JNull => false
    case JBool(b) => b
    case JNum(n) => n != 0
    case JStr(s) => s != ""
    case JArr(_) => true
    case JObj(_) => true
  }

  /** The request handed to `fetch`: URL, method, and the serialised body if any. */
  datatype Request = Request(url: string, verb: string, body: Option<Json>)

  /** What `fetch` did: threw, or replied; `json` is what `response.json()` gave, `None` if it threw. */
  datatype Reply =
    | NetworkError(message: string)
    | Replied(ok: bool, status: int, statusText: string, text: string, json: Option<Json>)


  /** The request `makeBackendRequest` builds, or the error it throws before any request. */
  function BackendRequest(backendUrl: Option<string>, endpoint: string, verb: string, body: Option<Json>)
    : (r: Result<Request>)
    ensures r.Failure? <==> !Truthy(backendUrl)
    ensures r.Failure? ==> r.error == UnconfiguredMessage
    ensures r.Success? ==> r.value.url == backendUrl.value + endpoint && r.value.verb == verb
    ensures r.Success? ==> (r.value.body.Some? <==> body.Some? && JsonTruthy(body.value))
    ensures r.Success? && r.value.body.Some? ==> r.value.body == body
  {
    if !Truthy(backendUrl) then Failure(UnconfiguredMessage)
    else
      var sent := if body.Some? && JsonTruthy(body.value) then body else None;
      Success(Request(backendUrl.value + endpoint, verb, sent))
  }

  /** `makeBackendRequest`: the parsed reply, or the error thrown or rethrown to the caller. */
  function MakeBackendRequest(backendUrl: Option<string>, endpoint: string, verb: string, body: Option<Json>,
                              reply: Reply): (r: Result<Json>)
    ensures !Truthy(backendUrl) ==> r == Failure(UnconfiguredMessage)
    ensures Truthy(backendUrl) && reply.NetworkError? ==> r == Failure(reply.message)
    ensures Truthy(backendUrl) && reply.Replied? && !reply.ok ==> r == Failure("Request failed: " + reply.statusText)
    ensures r.Success? <==> Truthy(backendUrl) && reply.Replied? && reply.ok && reply.json.Some?
    ensures r.Success? ==> r.value == reply.json.value
  {
    match BackendRequest(backendUrl, endpoint, verb, body)
    case Failure(e) => Failure(e)
    case Success(_) =>
      match reply
      case NetworkError(message) => Failure(message)
      case Replied(ok, _, statusText, _, json) =>
        if !ok then Failure("Request failed: " + statusText)
        else if json.None? then Failure(InvalidJsonMessage)
        else Success(json.value)
  }


  /** `value[key]`: a property of an object, `undefined` on other values, a `TypeError` on `null`. */
  function Property(j: Json, key: string): (r: Result<Option<Json>>)
    ensures r.Failure? <==> j.JNull?
    ensures r.Success? && r.value.Some? ==> j.JObj? && key in j.fields && r.value.value == j.fields[key]
    ensures j.JObj? && key in j.fields ==> r == Success(Some(j.fields[key]))
  {
    match j
    case JNull => Failure(NullPropertyMessage)
    case JObj(fields) => Success(if key in fields then Some(fields[key]) else None)
    case _ => Success(None)
  }

  /** The prompts `suggestFormulaEPromptsAction` returns when anything fails. */
  const FallbackPrompts: seq<string> := [
    "A Formula E car racing through ancient Roman ruins.",
    "Celebrating a win on the podium in Monaco, champagne spraying.",
    "A pit stop scene with a futuristic female mechanic.",
    "Driving a Formula E car on the surface of Mars.",
    "A dynamic, anime-style action shot of a Formula E car drifting."
  ]

  function FallbackJson(): Json
  {
    JArr(seq(|FallbackPrompts|, i requires 0 <= i < |FallbackPrompts| => JStr(FallbackPrompts[i])))
  }

  /**
   * `suggestFormulaEPromptsAction`, which never throws: `result.prompts`
   * (possibly `undefined`) on success, the fallback list on any failure.
   */
  function SuggestPrompts(backendUrl: Option<string>, reply: Reply): (r: Option<Json>)
    ensures MakeBackendRequest(backendUrl, "/suggest-prompts", "POST", Some(JObj(map[])), reply).Failure? ==>
              r == Some(FallbackJson())
    ensures !Truthy(backendUrl) || reply.NetworkError? || (reply.Replied? && !reply.ok) ==>
              r == Some(FallbackJson())
    ensures Truthy(backendUrl) && reply.Replied? && reply.ok && reply.json == Some(JNull) ==>
              r == Some(FallbackJson())
    ensures Truthy(backendUrl) && reply.Replied? && reply.ok && reply.json.Some? && !reply.json.value.JNull? ==>
              r == Property(reply.json.value, "prompts").value
  {
    var call := MakeBackendRequest(backendUrl, "/suggest-prompts", "POST", Some(JObj(map[])), reply);
    if call.Failure? then Some(FallbackJson())
    else
      var prompts := Property(call.value, "prompts");
      if prompts.Failure? then Some(FallbackJson()) else prompts.value
  }

  /** The fallback is five non-empty strings. */
  lemma FallbackIsFivePrompts()
    ensures |FallbackPrompts| == 5
    ensures FallbackJson().JArr? && |FallbackJson().items| == 5
    ensures forall i :: 0 <= i < 5 ==> FallbackJson().items[i] == JStr(FallbackPrompts[i]) && FallbackPrompts[i] != ""
  {
  }

  datatype Action = GenerateImage | EditImage | GenerateVideo

  function Endpoint(a: Action): string
  {
    match a
    case GenerateImage => "/generate-image"
    case EditImage => "/edit-image"
    case GenerateVideo => "/generate-video"
  }

  function ResultField(a: Action): string
  {
    match a
    case GenerateImage => "generatedImageDataUri"
    case EditImage => "editedImageDataUri"
    case GenerateVideo => "videoDataUri"
  }

  /** `generateFormulaEImageAction`, `editFormulaEImageAction` and `generateFormulaEVideoAction`. */
  function RunAction(a: Action, backendUrl: Option<string>, input: Json, reply: Reply): (r: Result<Option<Json>>)
    ensures r.Failure? <==>
      MakeBackendRequest(backendUrl, Endpoint(a), "POST", Some(input), reply).Failure? ||
      MakeBackendRequest(backendUrl, Endpoint(a), "POST", Some(input), reply).value.JNull?
    ensures r.Success? ==> r == Property(reply.json.value, ResultField(a))
  {
    var call := MakeBackendRequest(backendUrl, Endpoint(a), "POST", Some(input), reply);
    if call.Failure? then Failure(call.error) else Property(call.value, ResultField(a))
  }

  /** Each action posts its input object to its own endpoint under the configured URL. */
  lemma ActionRequestShape(a: Action, backendUrl: Option<string>, input: map<string, Json>)
    requires Truthy(backendUrl)
    ensures BackendRequest(backendUrl, Endpoint(a), "POST", Some(JObj(input))) ==
              Success(Request(backendUrl.value + Endpoint(a), "POST", Some(JObj(input))))
  {
  }

  /** Each action returns its own reply field: the image, the edited image, the video. */
  lemma ActionProjectsItsField(a: Action, backendUrl: Option<string>, input: Json, reply: Reply, value: Json)
    requires Truthy(backendUrl) && reply.Replied? && reply.ok && reply.json.Some?
    requires reply.json.value.JObj? && ResultField(a) in reply.json.value.fields
    requires reply.json.value.fields[ResultField(a)] == value
    ensures RunAction(a, backendUrl, input, reply) == Success(Some(value))
  {
  }
}
