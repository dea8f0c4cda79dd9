/**
 * The selfie session controller of the revision with a video step
 * (src/app/selfie/page.tsx).
 *
 * `Next` is the controller as a transition function over a `Session` value;
 * `VideoSelfiePage` is the page itself, one field per piece of React state
 * and one method per handler, each proved to move its fields exactly as
 * `Next` says. Every awaited call is split into two events: the click, which
 * checks the guard, sets the busy step or flag and yields the request, and
 * the settlement of the call, whose response is an input.
 */
module VideoSelfie {
  import opened Common
  import opened Prompts

  datatype Step = Capture | Preview | Generating | Result | Editing | GeneratingVideo | VideoResult | Error

  /** What the image actions resolve to, as this page destructures it. */
  datatype ImageReply = ImageReply(imageUrl: string, qrCode: Option<string>)

  /** What the video action resolves to, as this page destructures it. */
  datatype VideoReply = VideoReply(videoUrl: string, qrCode: Option<string>)

  datatype GenerateRequest = GenerateRequest(selfieDataUri: string, prompt: string)
  datatype EditRequest = EditRequest(imageDataUri: string, prompt: string)
  datatype VideoRequest = VideoRequest(imageDataUri: string)

  /** The page's state; `selectedPrompt` holds the chosen prompt's description. */
  datatype Session = Session(
    step: Step,
    selfie: Option<string>,
    prompts: seq<PromptOption>,
    selectedPrompt: Option<string>,
    generatedImage: Option<string>,
    imageQrCode: Option<string>,
    isLoadingPrompts: bool,
    showAllPrompts: bool,
    editPrompt: string,
    isEditing: bool,
    generatedVideo: Option<string>,
    videoQrCode: Option<string>,
    suggestionIndex: nat)

  const Initial: Session :=
    Session(Capture, None, [], None, None, None, true, false, "", false, None, None, 0)

  datatype Event =
    | PromptsLoaded(catalogue: seq<PromptOption>, suggestionsOk: bool)
    | SuggestionTick
    | Captured(image: string)
    | CameraFailed(message: string)
    | PromptPicked(description: string)
    | SeeMore
    | GenerateClicked
    | GenerateDone(reply: Outcome<ImageReply>)
    | EditTyped(text: string)
    | ApplyClicked
    | EditDone(reply: Outcome<ImageReply>)
    | VideoClicked
    | VideoDone(videoReply: Outcome<VideoReply>)
    | StartOverClicked
    | RetakeClicked

  /** The "Generate Image" button: `disabled={!selectedPrompt}`. */
  predicate GenerateEnabled(s: Session)
    ensures GenerateEnabled(s) && Truthy(s.selfie) ==> GenerateCall(s).Some?
    ensures !GenerateEnabled(s) ==> GenerateCall(s).None?
  {
    Truthy(s.selectedPrompt)
  }

  /** The "Apply" button: `disabled={!editPrompt || isEditing}`. */
  predicate ApplyEnabled(s: Session)
    ensures ApplyEnabled(s) && Truthy(s.generatedImage) ==> EditCall(s).Some?
    ensures s.isEditing ==> !ApplyEnabled(s)
  {
    s.editPrompt != "" && !s.isEditing
  }

  /** The request `handleGenerate` sends, or none when its guard returns early. */
  function GenerateCall(s: Session): Option<GenerateRequest>
  {
    if Truthy(s.selfie) && Truthy(s.selectedPrompt)
    then Some(GenerateRequest(s.selfie.value, s.selectedPrompt.value))
    else None
  }

  /** The request `handleEdit` sends, or none when its guard returns early. */
  function EditCall(s: Session): Option<EditRequest>
  {
    if Truthy(s.generatedImage) && s.editPrompt != ""
    then Some(EditRequest(s.generatedImage.value, s.editPrompt))
    else None
  }

  /** The request `handleGenerateVideo` sends, or none when its guard returns early. */
  function VideoCall(s: Session): Option<VideoRequest>
  {
    if Truthy(s.generatedImage) then Some(VideoRequest(s.generatedImage.value)) else None
  }

  function Reset(s: Session): Session
  {
    s.(selfie := None, selectedPrompt := None, generatedImage := None, imageQrCode := None,
       generatedVideo := None, videoQrCode := None, step := Capture)
  }

  function Retake(s: Session): Session
  {
    s.(selfie := None, selectedPrompt := None, generatedImage := None, imageQrCode := None,
       generatedVideo := None, videoQrCode := None, step := Capture)
  }

  /** The controller: the state after one event. */
  function Next(s: Session, e: Event): (r: Session)
    ensures r.prompts == s.prompts || e.PromptsLoaded?
    ensures r.suggestionIndex == s.suggestionIndex || e == SuggestionTick
    ensures r.selfie == s.selfie || e.Captured? || e == StartOverClicked || e == RetakeClicked
    ensures r.selectedPrompt == s.selectedPrompt || e.PromptPicked? || e == StartOverClicked || e == RetakeClicked
    ensures r.generatedImage == s.generatedImage || e.GenerateDone? || e.EditDone? || e == StartOverClicked || e == RetakeClicked
    ensures r.generatedVideo == s.generatedVideo || e.VideoDone? || e == StartOverClicked || e == RetakeClicked
    ensures r.editPrompt == s.editPrompt || e.EditTyped? || e.EditDone?
    ensures r.isEditing == s.isEditing || e == ApplyClicked || e.EditDone?
    ensures r.step == Generating ==> s.step == Generating || e == GenerateClicked
    ensures r.step == GeneratingVideo ==> s.step == GeneratingVideo || e == VideoClicked
  {
    match e
    case PromptsLoaded(catalogue, _) => s.(prompts := catalogue, isLoadingPrompts := false)
    case SuggestionTick => s.(suggestionIndex := NextSuggestion(s.suggestionIndex))
    case Captured(image) => s.(selfie := Some(image), step := Preview)
    case CameraFailed(_) => s.(step := Error)
    case PromptPicked(description) => s.(selectedPrompt := Some(description))
    case SeeMore => s.(showAllPrompts := true)
    case GenerateClicked => if GenerateCall(s).Some? then s.(step := Generating) else s
    case GenerateDone(Ok(r)) => s.(generatedImage := Some(r.imageUrl), imageQrCode := r.qrCode, step := Result)
    case GenerateDone(Failed) => s.(step := Preview)
    case EditTyped(text) => s.(editPrompt := text)
    case ApplyClicked => if EditCall(s).Some? then s.(isEditing := true) else s
    case EditDone(Ok(r)) =>
      s.(generatedImage := Some(r.imageUrl), imageQrCode := r.qrCode, editPrompt := "", isEditing := false)
    case EditDone(Failed) => s.(isEditing := false)
    case VideoClicked => if VideoCall(s).Some? then s.(step := GeneratingVideo) else s
    case VideoDone(Ok(r)) => s.(generatedVideo := Some(r.videoUrl), videoQrCode := r.qrCode, step := VideoResult)
    case VideoDone(Failed) => s.(step := Result)
    case StartOverClicked => Reset(s)
    case RetakeClicked => Retake(s)
  }

  /**
   * The events the rendered page can deliver in `s`: the controls shown in
   * the current step and not disabled, the camera callbacks while the camera
   * is shown, and the settlement of a call that is outstanding.
   */
  predicate Offered(s: Session, e: Event)
    ensures Offered(s, e) && (s.step == Generating || s.step == GeneratingVideo) ==>
              e.PromptsLoaded? || e == SuggestionTick || e.GenerateDone? || e.EditDone? || e.VideoDone?
    ensures Offered(s, e) && (e.GenerateDone? || e.VideoDone? || e.EditDone?) ==>
              s.step == Generating || s.step == GeneratingVideo || s.isEditing
    ensures e.PromptsLoaded? && !s.isLoadingPrompts ==> !Offered(s, e)
  {
    match e
    case PromptsLoaded(_, _) => s.isLoadingPrompts
    case SuggestionTick => true
    case Captured(image) => s.step == Capture && image != ""  // a canvas data URL is never empty
    case CameraFailed(_) => s.step == Capture
    case PromptPicked(d) =>
      s.step == Preview && !s.isLoadingPrompts &&
      exists p :: p in Displayed(s.prompts, s.showAllPrompts) && p.description == d
    case SeeMore => s.step == Preview && !s.isLoadingPrompts && SeeMoreOffered(s.prompts, s.showAllPrompts)
    case GenerateClicked => s.step == Preview && GenerateEnabled(s)
    case GenerateDone(_) => s.step == Generating
    case EditTyped(_) => s.step == Result && !s.isEditing
    case ApplyClicked => s.step == Result && ApplyEnabled(s)
    case EditDone(_) => s.isEditing
    case VideoClicked => s.step == Result && Truthy(s.generatedImage)
    case VideoDone(_) => s.step == GeneratingVideo
    case StartOverClicked => s.step == Result || s.step == VideoResult || s.step == Error
    case RetakeClicked => s.step == Preview
  }

  /** The state after a sequence of events. */
  function Run(s: Session, events: seq<Event>): Session
    decreases |events|
  {
    if events == [] then s else Run(Next(s, events[0]), events[1..])
  }

  /** Every event of the sequence is offered in the state it arrives in. */
  predicate OfferedTrace(s: Session, events: seq<Event>)
    decreases |events|
  {
    events == [] || (Offered(s, events[0]) && OfferedTrace(Next(s, events[0]), events[1..]))
  }

  /**
   * The session's step agrees with its fields: a selfie exists exactly
   * outside `capture` and `error`; a generated image exists whenever a
   * result or a video step is shown; a video exists exactly in
   * `video-result`; `generating` only starts with a prompt chosen; the
   * declared `editing` step is never entered.
   */
  predicate Consistent(s: Session)
  {
    && s.step != Editing
    && (s.selfie.Some? <==> s.step != Capture && s.step != Error)
    && (s.selfie.Some? ==> s.selfie.value != "")
    && (s.step == Result || s.step == GeneratingVideo || s.step == VideoResult ==> s.generatedImage.Some?)
    && (s.generatedVideo.Some? <==> s.step == VideoResult)
    && (s.step == Generating ==> Truthy(s.selectedPrompt))
    && s.suggestionIndex < |EditSuggestions|
  }

  lemma InitialConsistent()
    ensures Consistent(Initial)
  {
  }

  /**
   * In `preview` the "Generate" button is enabled exactly when the handler
   * gets past its early return: the button's guard and the handler's agree.
   */
  lemma GenerateButtonMatchesHandler(s: Session)
    requires Consistent(s) && s.step == Preview
    ensures Offered(s, GenerateClicked) <==> GenerateCall(s).Some?
  {
  }

  lemma NextKeepsConsistent(s: Session, e: Event)
    requires Consistent(s) && Offered(s, e)
    ensures Consistent(Next(s, e))
  {
  }

  /** Every sequence of offered events keeps the session consistent. */
  lemma {:induction false} TraceKeepsConsistent(s: Session, events: seq<Event>)
    requires Consistent(s) && OfferedTrace(s, events)
    ensures Consistent(Run(s, events))
    decreases |events|
  {
    if events != [] {
      NextKeepsConsistent(s, events[0]);
      TraceKeepsConsistent(Next(s, events[0]), events[1..]);
    }
  }

  /** Whatever path reaches `video-result`, both the image and the video are present. */
  lemma VideoResultHasImageAndVideo(events: seq<Event>)
    requires OfferedTrace(Initial, events)
    requires Run(Initial, events).step == VideoResult
    ensures Run(Initial, events).generatedImage.Some? && Run(Initial, events).generatedVideo.Some?
  {
    TraceKeepsConsistent(Initial, events);
  }

  /** Whatever path reaches `capture`, no selfie and no video remain. */
  lemma CaptureHasNoSelfie(events: seq<Event>)
    requires OfferedTrace(Initial, events)
    requires Run(Initial, events).step == Capture
    ensures Run(Initial, events).selfie.None? && Run(Initial, events).generatedVideo.None?
  {
    TraceKeepsConsistent(Initial, events);
  }

  /** Prompt loading ends the same way whether the suggestion call resolved or threw. */
  lemma PromptsLoadedEitherWay(s: Session, catalogue: seq<PromptOption>, ok: bool)
    ensures Next(s, PromptsLoaded(catalogue, ok)) == Next(s, PromptsLoaded(catalogue, !ok))
    ensures Next(s, PromptsLoaded(catalogue, ok)).prompts == catalogue
    ensures !Next(s, PromptsLoaded(catalogue, ok)).isLoadingPrompts
  {
  }

  /** `handleCapture` stores the image and moves to `preview`; nothing else changes. */
  lemma CaptureStoresSelfie(s: Session, image: string)
    ensures Next(s, Captured(image)).selfie == Some(image)
    ensures Next(s, Captured(image)).step == Preview
    ensures Next(s, Captured(image)).(selfie := s.selfie, step := s.step) == s
  {
  }

  /** `handleCameraError` moves to `error` and leaves every session field as it was. */
  lemma CameraErrorKeepsFields(s: Session, message: string)
    ensures Next(s, CameraFailed(message)).step == Error
    ensures Next(s, CameraFailed(message)).(step := s.step) == s
  {
  }

  /** `handleGenerate` starts only with a selfie and a prompt, sending exactly those. */
  lemma GenerateGuard(s: Session)
    ensures !Truthy(s.selfie) || !Truthy(s.selectedPrompt) ==>
              GenerateCall(s).None? && Next(s, GenerateClicked) == s
    ensures Truthy(s.selfie) && Truthy(s.selectedPrompt) ==>
              GenerateCall(s) == Some(GenerateRequest(s.selfie.value, s.selectedPrompt.value)) &&
              Next(s, GenerateClicked) == s.(step := Generating)
  {
  }

  /** A settled generate call: success shows the reply, failure returns to `preview` keeping the old image. */
  lemma GenerateSettles(s: Session, reply: Outcome<ImageReply>)
    ensures reply.Ok? ==> Next(s, GenerateDone(reply)).step == Result &&
                          Next(s, GenerateDone(reply)).generatedImage == Some(reply.value.imageUrl) &&
                          Next(s, GenerateDone(reply)).imageQrCode == reply.value.qrCode
    ensures reply.Failed? ==> Next(s, GenerateDone(reply)).step == Preview &&
                              Next(s, GenerateDone(reply)).generatedImage == s.generatedImage &&
                              Next(s, GenerateDone(reply)).(step := s.step) == s
  {
  }

  /**
   * An edit is a no-op without an image or an instruction; otherwise
   * `isEditing` is set during the call and cleared after it on both arms,
   * the step never changes, success replaces image and code and clears the
   * instruction, failure keeps all three.
   */
  lemma EditBracketsCall(s: Session, reply: Outcome<ImageReply>)
    ensures EditCall(s).None? ==> Next(s, ApplyClicked) == s
    ensures EditCall(s).Some? ==>
      var during := Next(s, ApplyClicked);
      var after := Next(during, EditDone(reply));
      && during.isEditing && during.step == s.step
      && !after.isEditing && after.step == s.step
      && (reply.Ok? ==> after.generatedImage == Some(reply.value.imageUrl) &&
                        after.imageQrCode == reply.value.qrCode && after.editPrompt == "")
      && (reply.Failed? ==> after == s.(isEditing := false))
  {
  }

  /** `handleGenerateVideo` starts only with an image; success shows the video, failure returns to `result` with the image kept. */
  lemma VideoSettles(s: Session, reply: Outcome<VideoReply>)
    ensures !Truthy(s.generatedImage) ==> VideoCall(s).None? && Next(s, VideoClicked) == s
    ensures Truthy(s.generatedImage) ==>
      var during := Next(s, VideoClicked);
      var after := Next(during, VideoDone(reply));
      && VideoCall(s) == Some(VideoRequest(s.generatedImage.value))
      && during.step == GeneratingVideo
      && after.generatedImage == s.generatedImage
      && (reply.Ok? ==> after.step == VideoResult && after.generatedVideo == Some(reply.value.videoUrl) &&
                        after.videoQrCode == reply.value.qrCode)
      && (reply.Failed? ==> after.step == Result && after == s.(step := Result))
  {
  }

  /** `reset` and `retake` leave the same state: the six results cleared and step `capture`. */
  lemma ResetIsRetake(s: Session)
    ensures Next(s, StartOverClicked) == Next(s, RetakeClicked)
    ensures var t := Next(s, StartOverClicked);
      && t.step == Capture && t.selfie.None? && t.selectedPrompt.None? && t.generatedImage.None?
      && t.imageQrCode.None? && t.generatedVideo.None? && t.videoQrCode.None?
  {
  }

  /** Starting over twice is starting over once, and so is retaking twice. */
  lemma ResetIdempotent(s: Session)
    ensures Next(Next(s, StartOverClicked), StartOverClicked) == Next(s, StartOverClicked)
    ensures Next(Next(s, RetakeClicked), RetakeClicked) == Next(s, RetakeClicked)
  {
  }

  /**
   * Starting over forgets the journey: two sessions that differ only in
   * their step and journey fields start over into the same state. The
   * prompt list, the edit box, the busy flag, "See More" and the
   * suggestion index survive a reset.
   */
  lemma ResetForgetsJourney(s: Session, t: Session)
    requires s.prompts == t.prompts && s.isLoadingPrompts == t.isLoadingPrompts
    requires s.showAllPrompts == t.showAllPrompts && s.editPrompt == t.editPrompt
    requires s.isEditing == t.isEditing && s.suggestionIndex == t.suggestionIndex
    ensures Next(s, StartOverClicked) == Next(t, StartOverClicked)
  {
  }

  /**
   * Nothing gates a late edit response: an edit started in `result`,
   * followed by "Start Over", still lands its image in the fresh session.
   */
  lemma LateEditLandsAfterStartOver(s: Session, r: ImageReply)
    requires s.step == Result && Truthy(s.generatedImage) && ApplyEnabled(s)
    ensures OfferedTrace(s, [ApplyClicked, StartOverClicked, EditDone(Ok(r))])
    ensures Run(s, [ApplyClicked, StartOverClicked, EditDone(Ok(r))]).step == Capture
    ensures Run(s, [ApplyClicked, StartOverClicked, EditDone(Ok(r))]).generatedImage == Some(r.imageUrl)
  {
    var events := [ApplyClicked, StartOverClicked, EditDone(Ok(r))];
    var t1 := Next(s, ApplyClicked);
    var t2 := Next(t1, StartOverClicked);
    var t3 := Next(t2, EditDone(Ok(r)));
    assert events[1..] == [StartOverClicked, EditDone(Ok(r))];
    assert events[1..][1..] == [EditDone(Ok(r))];
    assert [EditDone(Ok(r))][1..] == [];
    assert t2.isEditing && Offered(t2, EditDone(Ok(r)));
    assert Run(t3, []) == t3 && OfferedTrace(t3, []);
    assert Run(t2, [EditDone(Ok(r))]) == Run(t3, []);
    assert OfferedTrace(t2, [EditDone(Ok(r))]);
  }

  /** The page component: React state as fields, handlers as methods. */
  class VideoSelfiePage {
    var step: Step
    var selfie: Option<string>
    var prompts: seq<PromptOption>
    var selectedPrompt: Option<string>
    var generatedImage: Option<string>
    var imageQrCode: Option<string>
    var isLoadingPrompts: bool
    var showAllPrompts: bool
    var editPrompt: string
    var isEditing: bool
    var generatedVideo: Option<string>
    var videoQrCode: Option<string>
    var currentSuggestionIndex: nat

    function Snapshot(): Session
      reads this
    {
      Session(step, selfie, prompts, selectedPrompt, generatedImage, imageQrCode, isLoadingPrompts,
              showAllPrompts, editPrompt, isEditing, generatedVideo, videoQrCode, currentSuggestionIndex)
    }

    /** The `useState` initial values. */
    constructor ()
      ensures Snapshot() == Initial
    {
      step := Capture;
      selfie := None;
      prompts := [];
      selectedPrompt := None;
      generatedImage := None;
      imageQrCode := None;
      isLoadingPrompts := true;
      showAllPrompts := false;
      editPrompt := "";
      isEditing := false;
      generatedVideo := None;
      videoQrCode := None;
      currentSuggestionIndex := 0;
    }

    /**
     * `fetchPrompts` once the suggestion call settles; `catalogue` is
     * `PlaceHolderImages`. The try and the catch arm store the same
     * catalogue, so `suggestionsOk` does not change the outcome.
     */
    method FetchPromptsSettled(catalogue: seq<PromptOption>, suggestionsOk: bool)
      modifies this
      ensures Snapshot() == Next(old(Snapshot()), PromptsLoaded(catalogue, suggestionsOk))
    {
      prompts := catalogue;
      isLoadingPrompts := false;
    }

    /** One firing of the suggestion interval. */
    method TickSuggestion()
      modifies this
      ensures Snapshot() == Next(old(Snapshot()), SuggestionTick)
    {
      currentSuggestionIndex := (currentSuggestionIndex + 1) % |EditSuggestions|;
    }

    method HandleCapture(imageDataUrl: string)
      modifies this
      ensures Snapshot() == Next(old(Snapshot()), Captured(imageDataUrl))
    {
      selfie := Some(imageDataUrl);
      step := Preview;
    }

    /** The toast that shows `message` is left out. */
    method HandleCameraError(message: string)
      modifies this
      ensures Snapshot() == Next(old(Snapshot()), CameraFailed(message))
    {
      step := Error;
    }

    /** A click on a prompt tile, or on "Select" in its dialog. */
    method PickPrompt(description: string)
      modifies this
      ensures Snapshot() == Next(old(Snapshot()), PromptPicked(description))
    {
      selectedPrompt := Some(description);
    }

    method ShowAllPrompts()
      modifies this
      ensures Snapshot() == Next(old(Snapshot()), SeeMore)
    {
      showAllPrompts := true;
    }

    /** The synchronous part of `handleGenerate`, up to the awaited call. */
    method BeginGenerate() returns (call: Option<GenerateRequest>)
      modifies this
      ensures call == GenerateCall(old(Snapshot()))
      ensures Snapshot() == Next(old(Snapshot()), GenerateClicked)
    {
      if selfie.None? || selfie.value == "" || selectedPrompt.None? || selectedPrompt.value == "" {
        return None;
      }
      step := Generating;
      call := Some(GenerateRequest(selfie.value, selectedPrompt.value));
    }

    /** The rest of `handleGenerate`, once the call resolved or threw. */
    method CompleteGenerate(reply: Outcome<ImageReply>)
      modifies this
      ensures Snapshot() == Next(old(Snapshot()), GenerateDone(reply))
    {
      match reply {
        case Ok(r) =>
          generatedImage := Some(r.imageUrl);
          imageQrCode := r.qrCode;
          step := Result;
        case Failed =>
          step := Preview;
      }
    }

    /** Typing in the edit box. */
    method TypeEditPrompt(text: string)
      modifies this
      ensures Snapshot() == Next(old(Snapshot()), EditTyped(text))
    {
      editPrompt := text;
    }

    /** The synchronous part of `handleEdit`, up to the awaited call. */
    method BeginEdit() returns (call: Option<EditRequest>)
      modifies this
      ensures call == EditCall(old(Snapshot()))
      ensures Snapshot() == Next(old(Snapshot()), ApplyClicked)
    {
      if generatedImage.None? || generatedImage.value == "" || editPrompt == "" {
        return None;
      }
      isEditing := true;
      call := Some(EditRequest(generatedImage.value, editPrompt));
    }

    /** The rest of `handleEdit`: the success arm, or the catch arm, then `finally`. */
    method CompleteEdit(reply: Outcome<ImageReply>)
      modifies this
      ensures Snapshot() == Next(old(Snapshot()), EditDone(reply))
    {
      if reply.Ok? {
        generatedImage := Some(reply.value.imageUrl);
        imageQrCode := reply.value.qrCode;
        editPrompt := "";
      }
      isEditing := false;
    }

    /** The synchronous part of `handleGenerateVideo`, up to the awaited call. */
    method BeginGenerateVideo() returns (call: Option<VideoRequest>)
      modifies this
      ensures call == VideoCall(old(Snapshot()))
      ensures Snapshot() == Next(old(Snapshot()), VideoClicked)
    {
      if generatedImage.None? || generatedImage.value == "" {
        return None;
      }
      step := GeneratingVideo;
      call := Some(VideoRequest(generatedImage.value));
    }

    /** The rest of `handleGenerateVideo`, once the call resolved or threw. */
    method CompleteGenerateVideo(reply: Outcome<VideoReply>)
      modifies this
      ensures Snapshot() == Next(old(Snapshot()), VideoDone(reply))
    {
      match reply {
        case Ok(r) =>
          generatedVideo := Some(r.videoUrl);
          videoQrCode := r.qrCode;
          step := VideoResult;
        case Failed =>
          step := Result;
      }
    }

    method Reset()
      modifies this
      ensures Snapshot() == Next(old(Snapshot()), StartOverClicked)
    {
      selfie := None;
      selectedPrompt := None;
      generatedImage := None;
      imageQrCode := None;
      generatedVideo := None;
      videoQrCode := None;
      step := Capture;
    }

    method Retake()
      modifies this
      ensures Snapshot() == Next(old(Snapshot()), RetakeClicked)
    {
      selfie := None;
      selectedPrompt := None;
      generatedImage := None;
      imageQrCode := None;
      generatedVideo := None;
      videoQrCode := None;
      step := Capture;
    }
  }
}
