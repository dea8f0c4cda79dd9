/**
 * The multipart backend gateway of the prompt-id revision (app/actions.ts):
 * resolving a reference image by its URL, and the generate and edit actions,
 * which build a form by successive appends and post it to `/generate`.
 *
 * Every effect is an input: what fetching the selfie data URI gave, what
 * fetching a remote reference or reading a local one gave, the working
 * directory, and the backend's reply.
 */
module FormGateway {
  import opened Common

  /** The bytes of an uploaded file. */
  datatype Blob = Blob(bytes: seq<bv8>)

  /** Which branch of the reference resolver a URL takes, tried in this order. */
  datatype Route = NoReference | Remote | Local | Unsupported

  function RouteOf(url: string): (r: Route)
    ensures r == NoReference <==> url == ""
    ensures r == Remote <==> StartsWith(url, "http")
    ensures r == Local <==> url != "" && url[0] == '/'
  {
    if url == "" then NoReference
    else if StartsWith(url, "http") then Remote
    else if StartsWith(url, "/") then Local
    else Unsupported
  }

  /** What fetching a remote reference did: threw, or replied with a status and a body. */
  datatype RemoteFetch = FetchThrew(message: string) | FetchReplied(ok: bool, body: Blob)

  /** What reading a local reference file did. */
  datatype LocalRead = ReadOk(content: Blob) | ReadFailed

  /**
   * `[blob, name]`, `[null, null]`, or a rejection the resolver does not
   * catch (only a remote fetch can throw past it).
   */
  datatype Reference = Found(blob: Blob, fileName: string) | NotFound | Threw(message: string)

  /** The last path segment: everything after the final `/`. */
  function Basename(p: string): (r: string)
    ensures '/' !in r
    ensures |r| <= |p| && p[|p| - |r|..] == r
    ensures |r| < |p| ==> p[|p| - |r| - 1] == '/'
  {
    if p == [] then []
    else if p[|p| - 1] == '/' then []
    else Basename(p[..|p| - 1]) + [p[|p| - 1]]
  }

  /** Directories in front of a path that already has a `/` do not change its last segment. */
  lemma {:induction false} BasenameIgnoresPrefix(prefix: string, url: string)
    requires '/' in url
    ensures Basename(prefix + url) == Basename(url)
  {
    var whole := prefix + url;
    assert whole[|whole| - 1] == url[|url| - 1];
    if url[|url| - 1] != '/' {
      var shorter := url[..|url| - 1];
      assert '/' in shorter by {
        var k :| 0 <= k < |url| && url[k] == '/';
        assert shorter[k] == '/';
      }
      assert whole[..|whole| - 1] == prefix + shorter;
      BasenameIgnoresPrefix(prefix, shorter);
    }
  }

  /** `path.join(process.cwd(), 'public', url)` for a URL that starts with `/`. */
  function PublicPath(cwd: string, url: string): string
  {
    cwd + "/public" + url
  }

  /** `getReferenceImageBlob`, given what the fetch or the file read would yield. */
  function GetReferenceImageBlob(url: string, cwd: string, remote: RemoteFetch, local: LocalRead): (r: Reference)
    ensures RouteOf(url) == NoReference || RouteOf(url) == Unsupported ==> r == NotFound
    ensures RouteOf(url) == Remote ==>
              r == match remote
                   case FetchThrew(m) => Threw(m)
                   case FetchReplied(ok, body) => if ok then Found(body, "reference.jpg") else NotFound
    ensures RouteOf(url) == Local ==>
              r == match local
                   case ReadOk(content) => Found(content, Basename(url))
                   case ReadFailed => NotFound
    ensures r.Threw? ==> RouteOf(url) == Remote
  {
    match RouteOf(url)
    case NoReference => NotFound
    case Remote =>
      (match remote
       case FetchThrew(m) => Threw(m)
       case FetchReplied(ok, body) => if ok then Found(body, "reference.jpg") else NotFound)
    case Local =>
      (match local
       case ReadOk(content) =>
         var path := PublicPath(cwd, url);
         assert path == (cwd + "/public") + url;
         assert url[0] == '/';
         BasenameIgnoresPrefix(cwd + "/public", url);
         Found(content, Basename(path))
       case ReadFailed => NotFound)
    case Unsupported => NotFound
  }

  /** One `formData.append`: a file with its upload name, or a text value. */
  datatype FormField = FileField(name: string, blob: Blob, fileName: string) | TextField(name: string, value: string)

  /** The fields of the action's input that it reads. */
  datatype ImageInput = ImageInput(imageDataUri: string, prompt: string, referenceImageUrl: Option<string>)

  datatype ImageAction = GenerateImage | EditImage

  /** The parsed reply body: `null`, or an object with the two fields read (`None` when absent). */
  datatype ReplyBody = NullBody | Fields(imageData: Option<string>, qrCode: Option<string>)

  /** What posting the form did: threw, or replied; `body` is `None` when `response.json()` threw. */
  datatype BackendReply =
    | NetworkError(message: string)
    | Replied(ok: bool, status: int, statusText: string, text: string, body: Option<ReplyBody>)

  /** Everything outside the process that one action call observes. */
  datatype Io = Io(cwd: string, imageFetch: Result<Blob>, referenceFetch: RemoteFetch,
                   referenceRead: LocalRead, reply: BackendReply)

  /** `{imageUrl, qrCode}`; `qrCode` is `None` when the backend left it out. */
  datatype ImageResult = ImageResult(imageUrl: string, qrCode: Option<string>)

  datatype PostRequest = PostRequest(url: string, form: seq<FormField>)


  function UploadName(kind: ImageAction): string
  {
    match kind
    case GenerateImage => "selfie.jpg"
    case EditImage => "image.jpg"
  }

  function MissingImageMessage(kind: ImageAction): string
  {
    match kind
    case GenerateImage => "Backend did not return an image URL."
    case EditImage => "Backend did not return an edited image URL."
  }

  /** The reference the action resolves: none unless `referenceImageUrl` is truthy. */
  function ReferenceFor(input: ImageInput, io: Io): (r: Reference)
    ensures !Truthy(input.referenceImageUrl) ==> r == NotFound
  {
    if Truthy(input.referenceImageUrl)
    then GetReferenceImageBlob(input.referenceImageUrl.value, io.cwd, io.referenceFetch, io.referenceRead)
    else NotFound
  }

  /** `referenceImageBlob && fileName`: a found blob with a non-empty name is appended. */
  predicate Attaches(ref: Reference)
  {
    ref.Found? && ref.fileName != ""
  }

  /** The form the action posts once the selfie blob is in hand. */
  function ExpectedForm(kind: ImageAction, input: ImageInput, image: Blob, ref: Reference): (r: seq<FormField>)
    ensures |r| == (if Attaches(ref) then 3 else 2)
    ensures r[0] == FileField("image", image, UploadName(kind))
    ensures r[1] == TextField("prompt", input.prompt)
    ensures |r| == 3 ==> r[2] == FileField("referenceImage", ref.blob, ref.fileName)
  {
    [FileField("image", image, UploadName(kind)), TextField("prompt", input.prompt)]
      + (if Attaches(ref) then [FileField("referenceImage", ref.blob, ref.fileName)] else [])
  }

  /** What the action returns or throws once the backend has replied. */
  function ReplyResult(kind: ImageAction, reply: BackendReply): (r: Result<ImageResult>)
    ensures r.Success? <==>
      reply.Replied? && reply.ok && reply.body.Some? && reply.body.value.Fields? && Truthy(reply.body.value.imageData)
    ensures r.Success? ==> r.value == ImageResult(reply.body.value.imageData.value, reply.body.value.qrCode)
    ensures r.Success? ==> r.value.imageUrl != ""
    ensures reply.NetworkError? ==> r == Failure(reply.message)
    ensures reply.Replied? && !reply.ok ==> r == Failure("Request failed: " + reply.statusText + " - " + reply.text)
    ensures reply.Replied? && reply.ok && reply.body.Some? && reply.body.value.Fields? &&
              !Truthy(reply.body.value.imageData) ==>
              r == Failure(MissingImageMessage(kind))
  {
    match reply
    case NetworkError(message) => Failure(message)
    case Replied(ok, _, statusText, text, body) =>
      if !ok then Failure("Request failed: " + statusText + " - " + text)
      else if body.None? then Failure(InvalidJsonMessage)
      else match body.value
        case NullBody => Failure(NullPropertyMessage)
        case Fields(imageData, qrCode) =>
          if !Truthy(imageData) then Failure(MissingImageMessage(kind))
          else Success(ImageResult(imageData.value, qrCode))
  }

  /**
   * `generateFormulaEImageAction` (`GenerateImage`) and
   * `editFormulaEImageAction` (`EditImage`): `sent` is the request posted,
   * if one was, and `r` what the action returned or threw.
   */
  method PostImageForm(kind: ImageAction, backendUrl: Option<string>, input: ImageInput, io: Io)
    returns (sent: Option<PostRequest>, r: Result<ImageResult>)
    ensures !Truthy(backendUrl) ==> sent == None && r == Failure(UnconfiguredMessage)
    ensures Truthy(backendUrl) && io.imageFetch.Failure? ==> sent == None && r == Failure(io.imageFetch.error)
    ensures sent.Some? <==> Truthy(backendUrl) && io.imageFetch.Success? && !ReferenceFor(input, io).Threw?
    ensures sent.None? && Truthy(backendUrl) && io.imageFetch.Success? ==>
              r == Failure(ReferenceFor(input, io).message)
    ensures sent.Some? ==> sent.value.url == backendUrl.value + "/generate"
    ensures sent.Some? ==> sent.value.form == ExpectedForm(kind, input, io.imageFetch.value, ReferenceFor(input, io))
    ensures sent.Some? ==> r == ReplyResult(kind, io.reply)
    ensures r.Success? ==> sent.Some?
  {
    if !Truthy(backendUrl) {
      return None, Failure(UnconfiguredMessage);
    }
    var url := backendUrl.value + "/generate";
    if io.imageFetch.Failure? {
      return None, Failure(io.imageFetch.error);
    }
    var imageBlob := io.imageFetch.value;
    var form: seq<FormField> := [];
    form := form + [FileField("image", imageBlob, UploadName(kind))];
    form := form + [TextField("prompt", input.prompt)];
    if Truthy(input.referenceImageUrl) {
      var ref := GetReferenceImageBlob(input.referenceImageUrl.value, io.cwd, io.referenceFetch, io.referenceRead);
      if ref.Threw? {
        return None, Failure(ref.message);
      }
      if ref.Found? && ref.fileName != "" {
        form := form + [FileField("referenceImage", ref.blob, ref.fileName)];
      }
    }
    sent := Some(PostRequest(url, form));
    r := ReplyResult(kind, io.reply);
  }

  /**
   * The reference image travels with the form exactly when a URL is given and
   * it resolves: a remote URL that fetched with an OK status, or a local
   * path that was read and names a file.
   */
  lemma ReferenceAttachedIff(input: ImageInput, io: Io)
    ensures Attaches(ReferenceFor(input, io)) <==>
      Truthy(input.referenceImageUrl) &&
      ((RouteOf(input.referenceImageUrl.value) == Remote &&
        io.referenceFetch.FetchReplied? && io.referenceFetch.ok) ||
       (RouteOf(input.referenceImageUrl.value) == Local &&
        io.referenceRead.ReadOk? && Basename(input.referenceImageUrl.value) != ""))
  {
  }

  /** A local reference is uploaded under the last segment of its URL, whatever the working directory. */
  lemma LocalReferenceKeepsItsName(url: string, cwd: string, remote: RemoteFetch, content: Blob)
    requires url != "" && url[0] == '/'
    ensures GetReferenceImageBlob(url, cwd, remote, ReadOk(content)) == Found(content, Basename(url))
    ensures Basename(PublicPath(cwd, url)) == Basename(url)
  {
    assert PublicPath(cwd, url) == (cwd + "/public") + url;
    BasenameIgnoresPrefix(cwd + "/public", url);
  }
}
