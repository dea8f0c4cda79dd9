/**
 * How the prompt-id page (app/selfie/page.tsx) hands its requests to the
 * multipart gateway it imports (app/actions.ts).
 *
 * The page names the reference `referenceImageId`; the gateway reads
 * `referenceImageUrl`, which the page never sets. As written the reference
 * image of the chosen prompt therefore never reaches the backend. The
 * corrected wiring passes the page's value under the name the gateway reads.
 */
module ReferenceFinding {
  import opened Common
  import PromptSelfie
  import opened FormGateway

  /** The action input as the page builds it: the object has no `referenceImageUrl` key. */
  function GenerateInputAsWritten(req: PromptSelfie.GenerateRequest): ImageInput
  {
    ImageInput(req.selfieDataUri, req.prompt, None)
  }

  function EditInputAsWritten(req: PromptSelfie.EditRequest): ImageInput
  {
    ImageInput(req.imageDataUri, req.prompt, None)
  }

  /** The action input with the prompt's reference carried under the name the gateway reads. */
  function GenerateInput(req: PromptSelfie.GenerateRequest): (r: ImageInput)
    ensures r.imageDataUri == req.selfieDataUri && r.prompt == req.prompt
    ensures r.referenceImageUrl == req.referenceImageId
  {
    ImageInput(req.selfieDataUri, req.prompt, req.referenceImageId)
  }

  function EditInput(req: PromptSelfie.EditRequest): (r: ImageInput)
    ensures r.imageDataUri == req.imageDataUri && r.prompt == req.prompt
    ensures r.referenceImageUrl == req.referenceImageId
  {
    ImageInput(req.imageDataUri, req.prompt, req.referenceImageId)
  }

  /** As written, whatever the prompt's reference and whatever the world, the form has no reference. */
  lemma ReferenceDroppedAsWritten(kind: ImageAction, gen: PromptSelfie.GenerateRequest,
                                  edit: PromptSelfie.EditRequest, io: Io, image: Blob)
    ensures |ExpectedForm(kind, GenerateInputAsWritten(gen), image, ReferenceFor(GenerateInputAsWritten(gen), io))| == 2
    ensures |ExpectedForm(kind, EditInputAsWritten(edit), image, ReferenceFor(EditInputAsWritten(edit), io))| == 2
  {
  }

  /** A prompt with a remote reference that fetches fine: dropped as written, attached once corrected. */
  lemma ReferenceDroppedExample()
    ensures
      var req := PromptSelfie.GenerateRequest("data:image/jpeg;base64,AA", "Monaco", Some("https://r/x.jpg"));
      var io := Io("/srv", Success(Blob([1])), FetchReplied(true, Blob([2])), ReadFailed, NetworkError("offline"));
      |ExpectedForm(GenerateImage, GenerateInputAsWritten(req), Blob([1]), ReferenceFor(GenerateInputAsWritten(req), io))| == 2 &&
      ExpectedForm(GenerateImage, GenerateInput(req), Blob([1]), ReferenceFor(GenerateInput(req), io))[2] ==
        FileField("referenceImage", Blob([2]), "reference.jpg")
  {
    var url := "https://r/x.jpg";
    assert url[..4] == "http";
    assert RouteOf(url) == Remote;
  }

  /**
   * Corrected, a prompt whose reference resolves sends it with the form: a
   * local reference under its own file name, a remote one as `reference.jpg`.
   */
  lemma ReferenceSentWhenResolved(kind: ImageAction, req: PromptSelfie.GenerateRequest, io: Io, image: Blob)
    requires Truthy(req.referenceImageId)
    requires RouteOf(req.referenceImageId.value) == Local && io.referenceRead.ReadOk?
    requires Basename(req.referenceImageId.value) != ""
    ensures ExpectedForm(kind, GenerateInput(req), image, ReferenceFor(GenerateInput(req), io)) ==
              [FileField("image", image, UploadName(kind)), TextField("prompt", req.prompt),
               FileField("referenceImage", io.referenceRead.content, Basename(req.referenceImageId.value))]
  {
  }

  /** Corrected, the edit request carries the same reference as the selection it was made from. */
  lemma EditReferenceSentWhenResolved(kind: ImageAction, req: PromptSelfie.EditRequest, io: Io, image: Blob)
    requires Truthy(req.referenceImageId)
    requires RouteOf(req.referenceImageId.value) == Remote
    requires io.referenceFetch.FetchReplied? && io.referenceFetch.ok
    ensures ExpectedForm(kind, EditInput(req), image, ReferenceFor(EditInput(req), io)) ==
              [FileField("image", image, UploadName(kind)), TextField("prompt", req.prompt),
               FileField("referenceImage", io.referenceFetch.body, "reference.jpg")]
  {
  }
}
