/**
 * How the video-revision page (src/app/selfie/page.tsx) reads what the JSON
 * gateway it imports (src/app/actions.ts) resolves to.
 *
 * The gateway's actions resolve to the bare data URI string; the page
 * destructures `{ imageUrl, qrCode }` (or `{ videoUrl, qrCode }`) from it.
 * Reading those properties of a string gives `undefined`, so a successful
 * generation lands in `result` with no image. The corrected wiring takes
 * the URI itself as the image, and a missing URI as a failure, the way the
 * multipart gateway treats a reply without one.
 */
module ReplyShapeFinding {
  import opened Common
  import opened JsonGateway
  import VideoSelfie

  /**
   * `const { <urlKey>, qrCode } = await action(...)`: a thrown action, or
   * destructuring `undefined` or `null`, fails; otherwise the two
   * properties, `None` where undefined.
   */
  function DestructureAsWritten(settled: Result<Option<Json>>, urlKey: string)
    : Outcome<(Option<Json>, Option<Json>)>
  {
    if settled.Failure? || settled.value.None? || settled.value.value.JNull? then Failed
    else
      var v := settled.value.value;
      Ok((Property(v, urlKey).value, Property(v, "qrCode").value))
  }

  /**
   * As written: whenever the backend returns an image or a video, the page
   * reads both the URL and the code as `undefined`.
   */
  lemma UrlUndefinedAsWritten(a: Action, backendUrl: Option<string>, input: Json, reply: Reply, uri: string,
                              urlKey: string)
    requires Truthy(backendUrl) && reply.Replied? && reply.ok && reply.json.Some?
    requires reply.json.value.JObj? && ResultField(a) in reply.json.value.fields
    requires reply.json.value.fields[ResultField(a)] == JStr(uri)
    ensures DestructureAsWritten(RunAction(a, backendUrl, input, reply), urlKey) == Ok((None, None))
  {
    ActionProjectsItsField(a, backendUrl, input, reply, JStr(uri));
  }

  /** The image reply the page should take from an image action: the URI, with no code. */
  function ImageReplyOf(settled: Result<Option<Json>>): (r: Outcome<VideoSelfie.ImageReply>)
    ensures r.Ok? <==> settled.Success? && settled.value.Some? && settled.value.value.JStr? &&
                       settled.value.value.s != ""
    ensures r.Ok? ==> r.value == VideoSelfie.ImageReply(settled.value.value.s, None)
  {
    if settled.Success? && settled.value.Some? && settled.value.value.JStr? && settled.value.value.s != ""
    then Ok(VideoSelfie.ImageReply(settled.value.value.s, None))
    else Failed
  }

  /** The video reply the page should take from the video action. */
  function VideoReplyOf(settled: Result<Option<Json>>): (r: Outcome<VideoSelfie.VideoReply>)
    ensures r.Ok? <==> settled.Success? && settled.value.Some? && settled.value.value.JStr? &&
                       settled.value.value.s != ""
    ensures r.Ok? ==> r.value == VideoSelfie.VideoReply(settled.value.value.s, None)
  {
    if settled.Success? && settled.value.Some? && settled.value.value.JStr? && settled.value.value.s != ""
    then Ok(VideoSelfie.VideoReply(settled.value.value.s, None))
    else Failed
  }

  /** The backend answered the action with a non-empty data URI in the action's own reply field. */
  predicate ReturnsUri(a: Action, backendUrl: Option<string>, reply: Reply)
  {
    && Truthy(backendUrl) && reply.Replied? && reply.ok && reply.json.Some?
    && reply.json.value.JObj? && ResultField(a) in reply.json.value.fields
    && reply.json.value.fields[ResultField(a)].JStr? && reply.json.value.fields[ResultField(a)].s != ""
  }

  /**
   * Corrected, an image action gives the page an image exactly when the
   * backend returned a non-empty URI in that action's field, and the image
   * is that URI; every other settlement (unconfigured, network error, bad
   * status, bad JSON, `null`, a missing or empty field) is a failure.
   */
  lemma ImageReplyFromAction(a: Action, backendUrl: Option<string>, input: Json, reply: Reply)
    ensures ImageReplyOf(RunAction(a, backendUrl, input, reply)).Ok? <==> ReturnsUri(a, backendUrl, reply)
    ensures ReturnsUri(a, backendUrl, reply) ==>
              ImageReplyOf(RunAction(a, backendUrl, input, reply)).value.imageUrl ==
              reply.json.value.fields[ResultField(a)].s
  {
    if ReturnsUri(a, backendUrl, reply) {
      ActionProjectsItsField(a, backendUrl, input, reply, reply.json.value.fields[ResultField(a)]);
    }
  }

  /** Corrected, the video action gives the page a video exactly when the backend returned a non-empty `videoDataUri`. */
  lemma VideoReplyFromAction(backendUrl: Option<string>, input: Json, reply: Reply)
    ensures VideoReplyOf(RunAction(GenerateVideo, backendUrl, input, reply)).Ok? <==>
              ReturnsUri(GenerateVideo, backendUrl, reply)
    ensures ReturnsUri(GenerateVideo, backendUrl, reply) ==>
              VideoReplyOf(RunAction(GenerateVideo, backendUrl, input, reply)).value.videoUrl ==
              reply.json.value.fields["videoDataUri"].s
  {
    if ReturnsUri(GenerateVideo, backendUrl, reply) {
      ActionProjectsItsField(GenerateVideo, backendUrl, input, reply, reply.json.value.fields[ResultField(GenerateVideo)]);
    }
  }

  /** Corrected: the generated image the backend returned is the one the page shows. */
  lemma GeneratedImageShown(s: VideoSelfie.Session, backendUrl: Option<string>, input: Json, reply: Reply, uri: string)
    requires Truthy(backendUrl) && reply.Replied? && reply.ok && reply.json.Some?
    requires reply.json.value.JObj? && ResultField(GenerateImage) in reply.json.value.fields
    requires reply.json.value.fields[ResultField(GenerateImage)] == JStr(uri) && uri != ""
    ensures var t := VideoSelfie.Next(s, VideoSelfie.GenerateDone(ImageReplyOf(RunAction(GenerateImage, backendUrl, input, reply))));
      t.step == VideoSelfie.Result && t.generatedImage == Some(uri)
  {
    ActionProjectsItsField(GenerateImage, backendUrl, input, reply, JStr(uri));
    VideoSelfie.GenerateSettles(s, ImageReplyOf(RunAction(GenerateImage, backendUrl, input, reply)));
  }

  /** Corrected: the video the backend returned is the one the page plays, next to the image it came from. */
  lemma GeneratedVideoShown(s: VideoSelfie.Session, backendUrl: Option<string>, input: Json, reply: Reply, uri: string)
    requires Truthy(s.generatedImage)
    requires Truthy(backendUrl) && reply.Replied? && reply.ok && reply.json.Some?
    requires reply.json.value.JObj? && ResultField(GenerateVideo) in reply.json.value.fields
    requires reply.json.value.fields[ResultField(GenerateVideo)] == JStr(uri) && uri != ""
    ensures var during := VideoSelfie.Next(s, VideoSelfie.VideoClicked);
      var t := VideoSelfie.Next(during, VideoSelfie.VideoDone(VideoReplyOf(RunAction(GenerateVideo, backendUrl, input, reply))));
      t.step == VideoSelfie.VideoResult && t.generatedVideo == Some(uri) && t.generatedImage == s.generatedImage
  {
    ActionProjectsItsField(GenerateVideo, backendUrl, input, reply, JStr(uri));
    VideoSelfie.VideoSettles(s, VideoReplyOf(RunAction(GenerateVideo, backendUrl, input, reply)));
  }
}
