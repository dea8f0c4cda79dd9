/**
 * The selfie session controller of the revision that selects prompts by id
 * (app/selfie/page.tsx): no video step, a "Try Another Style" action, the
 * QR payload sent as a base64 PNG data URI, and the prompt's reference
 * image id forwarded to the backend.
 *
 * As in the video revision, `Next` is the controller as a transition
 * function and `PromptSelfiePage` the component whose handlers are proved
 * to follow it; each awaited call is a click event and a settlement event.
 */
module PromptSelfie {
  import opened Common
  import opened Prompts

  datatype Step = Capture | Preview | Generating | Result | Editing | Error

  /** What the image actions resolve to: `{ imageUrl, qrCode }`, `qrCode` possibly `undefined`. */
  datatype ImageReply = ImageReply(imageUrl: string, qrCode: Option<string>)

  datatype GenerateRequest = GenerateRequest(selfieDataUri: string, prompt: string, referenceImageId: Option<string>)
  datatype EditRequest = EditRequest(imageDataUri: string, prompt: string, referenceImageId: Option<string>)

  /** What a click on "Generate Image" leads to. */
  datatype GenerateDispatch = Idle | PromptMissing | Sent(request: GenerateRequest)

  datatype Session = Session(
    step: Step,
    selfie: Option<string>,
    prompts: seq<PromptOption>,
    selectedPromptId: Option<string>,
    generatedImage: Option<string>,
    imageQrCode: Option<string>,
    isLoadingPrompts: bool,
    showAllPrompts: bool,
    editPrompt: string,
    isEditing: bool,
    suggestionIndex: nat)

  const Initial: Session := Session(Capture, None, [], None, None, None, true, false, "", false, 0)

  datatype Event =
    | PromptsLoaded(catalogue: seq<PromptOption>)
    | SuggestionTick
    | Captured(image: string)
    | CameraFailed(message: string)
    | PromptPicked(id: string)
    | SeeMore
    | GenerateClicked
    | GenerateDone(reply: Outcome<ImageReply>)
    | EditTyped(text: string)
    | ApplyClicked
    | EditDone(reply: Outcome<ImageReply>)
    | ChooseNewPromptClicked
    | StartOverClicked
    | RetakeClicked

  const QrPrefix: string := "data:image/png;base64,"

  /** The template literal `data:image/png;base64,${qrCode}`; an `undefined` code prints as "undefined". */
  function QrPayload(qrCode: Option<string>): (r: string)
    ensures StartsWith(r, QrPrefix)
  {
    QrPrefix + (if qrCode.Some? then qrCode.value else "undefined")
  }

  /** The base64 text carried by a QR payload. */
  function QrText(payload: string): string
    requires StartsWith(payload, QrPrefix)
  {
    payload[|QrPrefix|..]
  }

  /** The backend's code is recovered from the payload, so distinct codes give distinct payloads. */
  lemma QrPayloadRoundTrip(qrCode: string)
    ensures QrText(QrPayload(Some(qrCode))) == qrCode
  {
    assert QrPayload(Some(qrCode)) == QrPrefix + qrCode;
  }

  /** The "Generate Image" button: `disabled={!selectedPromptId}`. */
  predicate GenerateEnabled(s: Session)
    ensures GenerateEnabled(s) && Truthy(s.selfie) ==> GenerateCall(s) != Idle
    ensures !GenerateEnabled(s) ==> GenerateCall(s) == Idle
  {
    Truthy(s.selectedPromptId)
  }

  /** The "Apply" button: `disabled={!editPrompt || isEditing}`. */
  predicate ApplyEnabled(s: Session)
    ensures ApplyEnabled(s) && Truthy(s.generatedImage) ==> EditCall(s).Some?
    ensures s.isEditing ==> !ApplyEnabled(s)
  {
    s.editPrompt != "" && !s.isEditing
  }

  /** `prompts.find(p => p.id === selectedPromptId)`; no id equals `null`. */
  function SelectedOption(s: Session): (r: Option<PromptOption>)
    ensures r.Some? ==> r.value in s.prompts && s.selectedPromptId == Some(r.value.id)
    ensures r.None? <==> s.selectedPromptId.None? || forall p :: p in s.prompts ==> p.id != s.selectedPromptId.value
  {
    if s.selectedPromptId.Some? then FindById(s.prompts, s.selectedPromptId.value) else None
  }

  /** What `handleGenerate` does before its awaited call. */
  function GenerateCall(s: Session): GenerateDispatch
  {
    if !Truthy(s.selfie) || !Truthy(s.selectedPromptId) then Idle
    else match SelectedOption(s)
      case None => PromptMissing
      case Some(p) => Sent(GenerateRequest(s.selfie.value, p.description, p.referenceImageId))
  }

  /** The request `handleEdit` sends, or none when its guard returns early. */
  function EditCall(s: Session): Option<EditRequest>
  {
    if Truthy(s.generatedImage) && s.editPrompt != ""
    then
      var ref := if SelectedOption(s).Some? then SelectedOption(s).value.referenceImageId else None;
      Some(EditRequest(s.generatedImage.value, s.editPrompt, ref))
    else None
  }

  function Reset(s: Session): Session
  {
    s.(selfie := None, selectedPromptId := None, generatedImage := None, imageQrCode := None, step := Capture)
  }

  function Retake(s: Session): Session
  {
    s.(selfie := None, selectedPromptId := None, generatedImage := None, imageQrCode := None, step := Capture)
  }

  function ChooseNewPrompt(s: Session): Session
  {
    s.(generatedImage := None, imageQrCode := None, selectedPromptId := None, step := Preview)
  }

  /** The controller: the state after one event. */
  function Next(s: Session, e: Event): (r: Session)
    ensures r.prompts == s.prompts || e.PromptsLoaded?
    ensures r.suggestionIndex == s.suggestionIndex || e == SuggestionTick
    ensures r.selfie == s.selfie || e.Captured? || e == StartOverClicked || e == RetakeClicked
    ensures r.selectedPromptId == s.selectedPromptId || e.PromptPicked? || e == ChooseNewPromptClicked ||
            e == StartOverClicked || e == RetakeClicked
    ensures r.generatedImage == s.generatedImage || e.GenerateDone? || e.EditDone? || e == ChooseNewPromptClicked ||
            e == StartOverClicked || e == RetakeClicked
    ensures r.editPrompt == s.editPrompt || e.EditTyped? || e.EditDone?
    ensures r.isEditing == s.isEditing || e == ApplyClicked || e.EditDone?
    ensures r.step == Generating ==> s.step == Generating || e == GenerateClicked
    ensures r.imageQrCode.Some? && r.imageQrCode != s.imageQrCode ==> StartsWith(r.imageQrCode.value, QrPrefix)
  {
    match e
    case PromptsLoaded(catalogue) => s.(prompts := catalogue, isLoadingPrompts := false)
    case SuggestionTick => s.(suggestionIndex := NextSuggestion(s.suggestionIndex))
    case Captured(image) => s.(selfie := Some(image), step := Preview)
    case CameraFailed(_) => s.(step := Error)
    case PromptPicked(id) => s.(selectedPromptId := Some(id))
    case SeeMore => s.(showAllPrompts := true)
    case GenerateClicked => if GenerateCall(s).Sent? then s.(step := Generating) else s
    case GenerateDone(Ok(r)) =>
      s.(generatedImage := Some(r.imageUrl), imageQrCode := Some(QrPayload(r.qrCode)), step := Result)
    case GenerateDone(Failed) => s.(step := Preview)
    case EditTyped(text) => s.(editPrompt := text)
    case ApplyClicked => if EditCall(s).Some? then s.(isEditing := true) else s
    case EditDone(Ok(r)) =>
      s.(generatedImage := Some(r.imageUrl), imageQrCode := Some(QrPayload(r.qrCode)), editPrompt := "",
         isEditing := false)
    case EditDone(Failed) => s.(isEditing := false)
    case ChooseNewPromptClicked => ChooseNewPrompt(s)
    case StartOverClicked => Reset(s)
    case RetakeClicked => Retake(s)
  }

  /** The events the rendered page can deliver in `s` (see the video revision). */
  predicate Offered(s: Session, e: Event)
    ensures Offered(s, e) && s.step == Generating ==>
              e.PromptsLoaded? || e == SuggestionTick || e.GenerateDone? || e.EditDone?
    ensures Offered(s, e) && (e.GenerateDone? || e.EditDone?) ==> s.step == Generating || s.isEditing
    ensures e.PromptsLoaded? && !s.isLoadingPrompts ==> !Offered(s, e)
  {
    match e
    case PromptsLoaded(_) => s.isLoadingPrompts
    case SuggestionTick => true
    case Captured(image) => s.step == Capture && image != ""  // a canvas data URL is never empty
    case CameraFailed(_) => s.step == Capture
    case PromptPicked(id) =>
      s.step == Preview && !s.isLoadingPrompts &&
      exists p :: p in Displayed(s.prompts, s.showAllPrompts) && p.id == id
    case SeeMore => s.step == Preview && !s.isLoadingPrompts && SeeMoreOffered(s.prompts, s.showAllPrompts)
    case GenerateClicked => s.step == Preview && GenerateEnabled(s)
    case GenerateDone(_) => s.step == Generating
    case EditTyped(_) => s.step == Result && !s.isEditing
    case ApplyClicked => s.step == Result && ApplyEnabled(s)
    case EditDone(_) => s.isEditing
    case ChooseNewPromptClicked => s.step == Result
    case StartOverClicked => s.step == Result || s.step == Error
    case RetakeClicked => s.step == Preview
  }

  function Run(s: Session, events: seq<Event>): Session
    decreases |events|
  {
    if events == [] then s else Run(Next(s, events[0]), events[1..])
  }

  predicate OfferedTrace(s: Session, events: seq<Event>)
    decreases |events|
  {
    events == [] || (Offered(s, events[0]) && OfferedTrace(Next(s, events[0]), events[1..]))
  }

  /**
   * The step agrees with the fields: a selfie exists exactly outside
   * `capture` and `error`; `result` always has an image; image and QR
   * payload are set and cleared together and the payload is a PNG data URI;
   * `generating` only starts with a prompt id; `editing` is never entered.
   */
  predicate Consistent(s: Session)
  {
    && s.step != Editing
    && (s.selfie.Some? <==> s.step != Capture && s.step != Error)
    && (s.selfie.Some? ==> s.selfie.value != "")
    && (s.step == Result ==> s.generatedImage.Some?)
    && (s.generatedImage.Some? <==> s.imageQrCode.Some?)
    && (s.imageQrCode.Some? ==> StartsWith(s.imageQrCode.value, QrPrefix))
    && (s.step == Generating ==> Truthy(s.selectedPromptId))
    && s.suggestionIndex < |EditSuggestions|
  }

  lemma InitialConsistent()
    ensures Consistent(Initial)
  {
  }

  /**
   * In `preview` the "Generate" button is enabled exactly when the handler
   * gets past its first guard (the catalogue lookup may still refuse).
   */
  lemma GenerateButtonMatchesHandler(s: Session)
    requires Consistent(s) && s.step == Preview
    ensures Offered(s, GenerateClicked) <==> GenerateCall(s) != Idle
  {
  }

  lemma NextKeepsConsistent(s: Session, e: Event)
    requires Consistent(s) && Offered(s, e)
    ensures Consistent(Next(s, e))
  {
  }

  /** Every sequence of offered events keeps the session consistent. */
  lemma {:induction false} TraceKeepsConsistent(s: Session, events: seq<Event>)
    requires Consistent(s) && OfferedTrace(s, events)
    ensures Consistent(Run(s, events))
    decreases |events|
  {
    if events != [] {
      NextKeepsConsistent(s, events[0]);
      TraceKeepsConsistent(Next(s, events[0]), events[1..]);
    }
  }

  /** Whatever path reaches `result`, an image and its PNG data-URI QR payload are shown. */
  lemma ResultHasImageAndQr(events: seq<Event>)
    requires OfferedTrace(Initial, events)
    requires Run(Initial, events).step == Result
    ensures Run(Initial, events).generatedImage.Some?
    ensures Run(Initial, events).imageQrCode.Some? && StartsWith(Run(Initial, events).imageQrCode.value, QrPrefix)
  {
    TraceKeepsConsistent(Initial, events);
  }

  /** Without a selfie or a prompt id, "Generate" does nothing. */
  lemma GenerateGuard(s: Session)
    requires !Truthy(s.selfie) || !Truthy(s.selectedPromptId)
    ensures GenerateCall(s) == Idle && Next(s, GenerateClicked) == s
  {
  }

  /** An id missing from the catalogue is refused: no request, and no state change. */
  lemma GenerateRefusesMissingPrompt(s: Session)
    requires Truthy(s.selfie) && Truthy(s.selectedPromptId)
    requires forall p :: p in s.prompts ==> p.id != s.selectedPromptId.value
    ensures GenerateCall(s) == PromptMissing && Next(s, GenerateClicked) == s
  {
  }

  /** A found prompt is sent by its description and its reference image id; the step becomes `generating`. */
  lemma GenerateSendsFoundPrompt(s: Session, k: nat)
    requires Truthy(s.selfie) && Truthy(s.selectedPromptId)
    requires k < |s.prompts| && s.prompts[k].id == s.selectedPromptId.value
    requires forall j :: 0 <= j < k ==> s.prompts[j].id != s.selectedPromptId.value
    ensures GenerateCall(s) ==
      Sent(GenerateRequest(s.selfie.value, s.prompts[k].description, s.prompts[k].referenceImageId))
    ensures Next(s, GenerateClicked) == s.(step := Generating)
  {
    FindByIdIsFirst(s.prompts, s.selectedPromptId.value, k);
  }

  /** A settled generate call: success shows the image and the prefixed code; failure returns to `preview` keeping the image. */
  lemma GenerateSettles(s: Session, reply: Outcome<ImageReply>)
    ensures reply.Ok? ==> Next(s, GenerateDone(reply)).step == Result &&
                          Next(s, GenerateDone(reply)).generatedImage == Some(reply.value.imageUrl) &&
                          Next(s, GenerateDone(reply)).imageQrCode == Some(QrPayload(reply.value.qrCode))
    ensures reply.Failed? ==> Next(s, GenerateDone(reply)) == s.(step := Preview)
  {
  }

  /**
   * An edit forwards the selected prompt's reference image id, or none when
   * the lookup fails; `isEditing` brackets the call; failure keeps the image
   * and its code.
   */
  lemma EditBracketsCall(s: Session, reply: Outcome<ImageReply>)
    requires EditCall(s).Some?
    ensures EditCall(s).value.referenceImageId ==
              (if SelectedOption(s).Some? then SelectedOption(s).value.referenceImageId else None)
    ensures SelectedOption(s).None? ==> EditCall(s).value.referenceImageId.None?
    ensures var during := Next(s, ApplyClicked);
      var after := Next(during, EditDone(reply));
      && during.isEditing && during.step == s.step
      && !after.isEditing && after.step == s.step
      && (reply.Ok? ==> after.generatedImage == Some(reply.value.imageUrl) &&
                        after.imageQrCode == Some(QrPayload(reply.value.qrCode)) && after.editPrompt == "")
      && (reply.Failed? ==> after == s.(isEditing := false))
  {
  }

  /** "Try Another Style" keeps the selfie, drops image, code and prompt id, and returns to `preview`. */
  lemma ChooseNewPromptKeepsSelfie(s: Session)
    ensures var t := Next(s, ChooseNewPromptClicked);
      && t.selfie == s.selfie && t.step == Preview
      && t.generatedImage.None? && t.imageQrCode.None? && t.selectedPromptId.None?
      && t.(generatedImage := s.generatedImage, imageQrCode := s.imageQrCode,
            selectedPromptId := s.selectedPromptId, step := s.step) == s
  {
  }

  /** `reset` and `retake` leave the same state: selfie, prompt id, image and code cleared, step `capture`. */
  lemma ResetIsRetake(s: Session)
    ensures Next(s, StartOverClicked) == Next(s, RetakeClicked)
    ensures var t := Next(s, StartOverClicked);
      && t.step == Capture && t.selfie.None? && t.selectedPromptId.None?
      && t.generatedImage.None? && t.imageQrCode.None?
  {
  }

  /** Starting over twice is starting over once. */
  lemma ResetIdempotent(s: Session)
    ensures Next(Next(s, StartOverClicked), StartOverClicked) == Next(s, StartOverClicked)
    ensures Next(Next(s, RetakeClicked), RetakeClicked) == Next(s, RetakeClicked)
  {
  }

  /** The page component: React state as fields, handlers as methods. */
  class PromptSelfiePage {
    var step: Step
    var selfie: Option<string>
    var prompts: seq<PromptOption>
    var selectedPromptId: Option<string>
    var generatedImage: Option<string>
    var imageQrCode: Option<string>
    var isLoadingPrompts: bool
    var showAllPrompts: bool
    var editPrompt: string
    var isEditing: bool
    var currentSuggestionIndex: nat

    function Snapshot(): Session
      reads this
    {
      Session(step, selfie, prompts, selectedPromptId, generatedImage, imageQrCode, isLoadingPrompts,
              showAllPrompts, editPrompt, isEditing, currentSuggestionIndex)
    }

    constructor ()
      ensures Snapshot() == Initial
    {
      step := Capture;
      selfie := None;
      prompts := [];
      selectedPromptId := None;
      generatedImage := None;
      imageQrCode := None;
      isLoadingPrompts := true;
      showAllPrompts := false;
      editPrompt := "";
      isEditing := false;
      currentSuggestionIndex := 0;
    }

    /** The mount effect; `catalogue` is `PlaceHolderImages`. */
    method LoadPrompts(catalogue: seq<PromptOption>)
      modifies this
      ensures Snapshot() == Next(old(Snapshot()), PromptsLoaded(catalogue))
    {
      prompts := catalogue;
      isLoadingPrompts := false;
    }

    method TickSuggestion()
      modifies this
      ensures Snapshot() == Next(old(Snapshot()), SuggestionTick)
    {
      currentSuggestionIndex := (currentSuggestionIndex + 1) % |EditSuggestions|;
    }

    method HandleCapture(imageDataUrl: string)
      modifies this
      ensures Snapshot() == Next(old(Snapshot()), Captured(imageDataUrl))
    {
      selfie := Some(imageDataUrl);
      step := Preview;
    }

    method HandleCameraError(message: string)
      modifies this
      ensures Snapshot() == Next(old(Snapshot()), CameraFailed(message))
    {
      step := Error;
    }

    method PickPrompt(id: string)
      modifies this
      ensures Snapshot() == Next(old(Snapshot()), PromptPicked(id))
    {
      selectedPromptId := Some(id);
    }

    method ShowAllPrompts()
      modifies this
      ensures Snapshot() == Next(old(Snapshot()), SeeMore)
    {
      showAllPrompts := true;
    }

    /** The synchronous part of `handleGenerate`: the guard, the lookup and the step change. */
    method BeginGenerate() returns (dispatch: GenerateDispatch)
      modifies this
      ensures dispatch == GenerateCall(old(Snapshot()))
      ensures Snapshot() == Next(old(Snapshot()), GenerateClicked)
    {
      if selfie.None? || selfie.value == "" || selectedPromptId.None? || selectedPromptId.value == "" {
        return Idle;
      }
      var selectedPrompt := FindById(prompts, selectedPromptId.value);
      if selectedPrompt.None? {
        return PromptMissing;
      }
      step := Generating;
      dispatch := Sent(GenerateRequest(selfie.value, selectedPrompt.value.description,
                                       selectedPrompt.value.referenceImageId));
    }

    method CompleteGenerate(reply: Outcome<ImageReply>)
      modifies this
      ensures Snapshot() == Next(old(Snapshot()), GenerateDone(reply))
    {
      match reply {
        case Ok(r) =>
          generatedImage := Some(r.imageUrl);
          imageQrCode := Some(QrPayload(r.qrCode));
          step := Result;
        case Failed =>
          step := Preview;
      }
    }

    method TypeEditPrompt(text: string)
      modifies this
      ensures Snapshot() == Next(old(Snapshot()), EditTyped(text))
    {
      editPrompt := text;
    }

    /** The synchronous part of `handleEdit`, with the optional-chained reference lookup. */
    method BeginEdit() returns (call: Option<EditRequest>)
      modifies this
      ensures call == EditCall(old(Snapshot()))
      ensures Snapshot() == Next(old(Snapshot()), ApplyClicked)
    {
      if generatedImage.None? || generatedImage.value == "" || editPrompt == "" {
        return None;
      }
      isEditing := true;
      var found := if selectedPromptId.Some? then FindById(prompts, selectedPromptId.value) else None;
      var ref := if found.Some? then found.value.referenceImageId else None;
      call := Some(EditRequest(generatedImage.value, editPrompt, ref));
    }

    method CompleteEdit(reply: Outcome<ImageReply>)
      modifies this
      ensures Snapshot() == Next(old(Snapshot()), EditDone(reply))
    {
      if reply.Ok? {
        generatedImage := Some(reply.value.imageUrl);
        imageQrCode := Some(QrPayload(reply.value.qrCode));
        editPrompt := "";
      }
      isEditing := false;
    }

    method ChooseNewPrompt()
      modifies this
      ensures Snapshot() == Next(old(Snapshot()), ChooseNewPromptClicked)
    {
      generatedImage := None;
      imageQrCode := None;
      selectedPromptId := None;
      step := Preview;
    }

    method Reset()
      modifies this
      ensures Snapshot() == Next(old(Snapshot()), StartOverClicked)
    {
      selfie := None;
      selectedPromptId := None;
      generatedImage := None;
      imageQrCode := None;
      step := Capture;
    }

    method Retake()
      modifies this
      ensures Snapshot() == Next(old(Snapshot()), RetakeClicked)
    {
      selfie := None;
      selectedPromptId := None;
      generatedImage := None;
      imageQrCode := None;
      step := Capture;
    }
  }
}
