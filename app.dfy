/**
 * The generation session of App.tsx: the state the handlers update and
 * the handlers themselves.
 *
 * `Session` holds the component's state as fields; each handler is a
 * method whose new state is given by a step function on `State`, the
 * value of all the fields together. The properties of the handlers are
 * lemmas about the step functions, and `ValidState` is the invariant every
 * handler keeps. What the service calls give and the `Date.now()` readings
 * are inputs of the handlers.
 */
module App {
  import opened Types
  import opened JsText
  import opened Templates
  import opened Prompt
  import opened Gemini

  const PhotoRequiredMessage := "Please upload a reference photo for Photo Mode."
  const AuthFailedMessage := "Authorization failed. Please reconnect your API Key."
  const GenericFailureMessage := "Failed to generate image. Please try again."
  const ChatApology := "Sorry, I'm having trouble connecting right now."
  const AnalysisFailedMessage := "Could not analyze image. You can still generate, but auto-fill failed."

  const GreetingOpening := "I'm analyzing your request for "
  const GreetingClosing := ". Ask me anything about the structure or how to improve the visual!"
  function Greeting(objectName: string): string
  {
    GreetingOpening + objectName + GreetingClosing
  }

  const LabelOpening := "Exploded View of "

  /** The label a generated image is stored with. */
  function PromptLabel(objectName: string): string
  {
    LabelOpening + objectName
  }

  /** The form's starting values. */
  const DefaultParams := GenerationParams("", Technical, Ratio1x1, High, true, true, TextMode, None, Some(""))

  /** The `Date.now()` readings of one generation: the greeting's time, the image id and the image's time. */
  datatype Clock = Clock(greetingTime: int, imageId: string, imageTime: int)

  /** The value of all the session's fields. */
  datatype State = State(
    params: GenerationParams,
    history: seq<GeneratedImage>,
    currentResult: Option<GeneratedImage>,
    currentParts: seq<Part>,
    chatMessages: seq<ChatMessage>,
    chatInput: string,
    coachChat: Option<CoachSession>,
    error: Option<string>,
    hasApiKey: bool,
    isGenerating: bool,
    isAnalyzing: bool,
    analysisResult: Option<AnalysisResult>,
    currentPage: string)

  function Initial(hasKey: bool): State
  {
    State(DefaultParams, [], None, [], [], "", None, None, hasKey, false, false, None, "home")
  }

  // ---------------------------------------------------------------------
  // The invariant

  /** What every image in the history has: the label of its object, a parts list, a non-blank name and, in photo mode, a reference. */
  predicate WellFormedImage(img: GeneratedImage)
  {
    img.promptUsed == PromptLabel(img.params.objectName)
    && img.parts.Some?
    && !IsBlank(img.params.objectName)
    && (img.params.mode == PhotoMode ==> Truthy(img.params.referenceImage))
  }

  /** Between handlers: every stored image is well formed, the parts shown are the current result's, and nothing is in flight. */
  predicate ValidState(s: State)
  {
    (forall img :: img in s.history ==> WellFormedImage(img))
    && (s.currentResult.Some? ==> WellFormedImage(s.currentResult.value) && s.currentParts == s.currentResult.value.parts.value)
    && (s.currentResult.None? ==> s.currentParts == [])
    && !s.isGenerating && !s.isAnalyzing
  }

  lemma InitialValid(hasKey: bool)
    ensures ValidState(Initial(hasKey))
    ensures Initial(hasKey).history == [] && Initial(hasKey).hasApiKey == hasKey
  {
  }

  // ---------------------------------------------------------------------
  // handleGenerate

  /** `Promise.all` of the two calls: the image's failure first, then the parts'; both results on success. */
  function Join(image: Result<string, Failure>, parts: Result<seq<Part>, Failure>): (r: Result<(string, seq<Part>), Failure>)
    ensures r.Ok? <==> image.Ok? && parts.Ok?
    ensures r.Ok? ==> r.value == (image.value, parts.value)
    ensures image.Err? ==> r == Err(image.error)
    ensures image.Ok? && parts.Err? ==> r == Err(parts.error)
  {
    match image
    case Err(f) => Err(f)
    case Ok(url) =>
      match parts
      case Err(f) => Err(f)
      case Ok(ps) => Ok((url, ps))
  }

  /** `err.message || JSON.stringify(err)`. */
  function ErrorMessage(f: Failure): string
  {
    if f.message != "" then f.message else f.serialized
  }

  predicate IsAuthorizationError(m: string)
  {
    Includes(m, "403") || Includes(m, "permission") || Includes(m, "API Key")
  }

  function NewImage(p: GenerationParams, url: string, parts: seq<Part>, clock: Clock): GeneratedImage
  {
    GeneratedImage(clock.imageId, url, p, clock.imageTime, PromptLabel(p.objectName), Some(parts))
  }

  /** The form passes the gate: a non-blank object name, and a reference in photo mode. */
  predicate Dispatches(p: GenerationParams)
  {
    !IsBlank(p.objectName) && !(p.mode == PhotoMode && !Truthy(p.referenceImage))
  }

  /** The state after `handleGenerate` has run to its end, given what `createCoachChat` and the two calls gave. */
  function GenerateStep(s: State, coach: Result<CoachSession, Failure>, image: Result<string, Failure>,
                        parts: Result<seq<Part>, Failure>, clock: Clock): State
  {
    if IsBlank(s.params.objectName) then s
    else if s.params.mode == PhotoMode && !Truthy(s.params.referenceImage) then s.(error := Some(PhotoRequiredMessage))
    else Settle(Reset(s, coach, clock), s.params, Join(image, parts), clock)
  }

  /** From `setIsGenerating(true)` to the coach: the error, the result and the transcript are cleared, and the greeting is posted when a coach was created. */
  function Reset(s: State, coach: Result<CoachSession, Failure>, clock: Clock): State
  {
    s.(isGenerating := true, error := None, currentResult := None, currentParts := [],
       chatMessages := if coach.Ok? then [ChatMessage(Model, Greeting(s.params.objectName), clock.greetingTime)] else [],
       coachChat := if coach.Ok? then Some(coach.value) else s.coachChat)
  }

  /** The joined outcome lands: the image is stored, or the error is classified; the `finally` clears the flag. */
  function Settle(s: State, p: GenerationParams, outcome: Result<(string, seq<Part>), Failure>, clock: Clock): State
  {
    match outcome
    case Ok((url, parts)) =>
      var img := NewImage(p, url, parts, clock);
      s.(history := [img] + s.history, currentResult := Some(img), currentParts := parts, isGenerating := false)
    case Err(f) =>
      var m := ErrorMessage(f);
      if IsAuthorizationError(m) then s.(error := Some(AuthFailedMessage), hasApiKey := false, isGenerating := false)
      else s.(error := Some(if m != "" then m else GenericFailureMessage), isGenerating := false)
  }

  /** A blank object name changes nothing, whatever the calls would have given. */
  lemma GenerateBlankIsNoop(s: State, coach: Result<CoachSession, Failure>, image: Result<string, Failure>,
                            parts: Result<seq<Part>, Failure>, clock: Clock)
    requires IsBlank(s.params.objectName)
    ensures GenerateStep(s, coach, image, parts, clock) == s
  {
  }

  /** Photo mode without a reference only sets the error; what the calls would have given plays no part. */
  lemma GeneratePhotoGate(s: State, k1: Result<CoachSession, Failure>, i1: Result<string, Failure>, p1: Result<seq<Part>, Failure>,
                          k2: Result<CoachSession, Failure>, i2: Result<string, Failure>, p2: Result<seq<Part>, Failure>, c1: Clock, c2: Clock)
    requires !IsBlank(s.params.objectName) && s.params.mode == PhotoMode && !Truthy(s.params.referenceImage)
    ensures GenerateStep(s, k1, i1, p1, c1) == GenerateStep(s, k2, i2, p2, c2) == s.(error := Some(PhotoRequiredMessage))
  {
  }

  /**
   * Once dispatched: the form and the other inputs are untouched, nothing
   * is in flight afterwards, and the transcript is exactly the greeting
   * when a coach was created, who then replaces the previous one (else
   * the transcript is empty and the previous coach is kept).
   */
  lemma GenerateReset(s: State, coach: Result<CoachSession, Failure>, image: Result<string, Failure>,
                      parts: Result<seq<Part>, Failure>, clock: Clock)
    requires Dispatches(s.params)
    ensures var r := GenerateStep(s, coach, image, parts, clock);
      r.params == s.params && r.chatInput == s.chatInput && r.analysisResult == s.analysisResult
      && r.currentPage == s.currentPage && r.isAnalyzing == s.isAnalyzing && !r.isGenerating
      && (coach.Ok? ==>
            r.chatMessages == [ChatMessage(Model, Greeting(s.params.objectName), clock.greetingTime)]
            && r.coachChat == Some(coach.value))
      && (coach.Err? ==> r.chatMessages == [] && r.coachChat == s.coachChat)
  {
    var r0 := Reset(s, coach, clock);
    SettleKeeps(r0, s.params, Join(image, parts), clock);
  }

  /** Settling touches only the history, the result, the parts, the error, the key flag and the in-flight flag. */
  lemma SettleKeeps(s: State, p: GenerationParams, outcome: Result<(string, seq<Part>), Failure>, clock: Clock)
    ensures var r := Settle(s, p, outcome, clock);
      r.params == s.params && r.chatInput == s.chatInput && r.analysisResult == s.analysisResult
      && r.currentPage == s.currentPage && r.isAnalyzing == s.isAnalyzing && !r.isGenerating
      && r.chatMessages == s.chatMessages && r.coachChat == s.coachChat
  {
  }

  /**
   * Success prepends the new image, which copies the form and carries the
   * returned parts, and makes it the current result.
   */
  lemma GenerateSuccess(s: State, coach: Result<CoachSession, Failure>, url: string, parts: seq<Part>, clock: Clock)
    requires Dispatches(s.params)
    ensures var r := GenerateStep(s, coach, Ok(url), Ok(parts), clock);
      |r.history| == |s.history| + 1 && r.history[1..] == s.history
      && r.history[0] == NewImage(s.params, url, parts, clock)
      && r.history[0].params == s.params && r.history[0].url == url && r.history[0].parts == Some(parts)
      && r.currentResult == Some(r.history[0]) && r.currentParts == parts
      && r.error.None? && r.hasApiKey == s.hasApiKey
  {
    var r0 := Reset(s, coach, clock);
    var r := Settle(r0, s.params, Ok((url, parts)), clock);
    assert r.history == [NewImage(s.params, url, parts, clock)] + s.history;
  }

  /**
   * Failure, of either call, leaves the history alone and clears the
   * result; an authorization-looking message sets the fixed message and
   * drops the key flag, any other is shown as it is (or the generic text
   * when empty).
   */
  lemma GenerateFailure(s: State, coach: Result<CoachSession, Failure>, image: Result<string, Failure>,
                        parts: Result<seq<Part>, Failure>, clock: Clock)
    requires Dispatches(s.params) && (image.Err? || parts.Err?)
    ensures var r := GenerateStep(s, coach, image, parts, clock);
      var m := ErrorMessage(if image.Err? then image.error else parts.error);
      r.history == s.history && r.currentResult.None? && r.currentParts == []
      && (IsAuthorizationError(m) ==> r.error == Some(AuthFailedMessage) && !r.hasApiKey)
      && (!IsAuthorizationError(m) ==>
            r.hasApiKey == s.hasApiKey && r.error.Some? && r.error.value != ""
            && (m != "" ==> r.error == Some(m)) && (m == "" ==> r.error == Some(GenericFailureMessage)))
  {
  }

  /** Without a key generateImage fails with "API Key is missing.", which the session reads as an authorization failure. */
  lemma MissingKeyRevokesAuth(s: State, coach: Result<CoachSession, Failure>, parts: Result<seq<Part>, Failure>, clock: Clock)
    requires Dispatches(s.params)
    ensures var r := GenerateStep(s, coach, Err(Raised(MissingKeyMessage)), parts, clock);
      r.error == Some(AuthFailedMessage) && !r.hasApiKey && r.history == s.history
  {
    IncludesFront("API Key", " is missing.");
    GenerateFailure(s, coach, Err(Raised(MissingKeyMessage)), parts, clock);
  }

  /** A 403 from the image service, rewritten to the permission message, is read as an authorization failure too. */
  lemma ForbiddenRevokesAuth(s: State, coach: Result<CoachSession, Failure>, parts: Result<seq<Part>, Failure>, clock: Clock)
    requires Dispatches(s.params)
    ensures var r := GenerateStep(s, coach, Err(Raised(PermissionMessage)), parts, clock);
      r.error == Some(AuthFailedMessage) && !r.hasApiKey && r.history == s.history
  {
    PermissionNamesKey();
    GenerateFailure(s, coach, Err(Raised(PermissionMessage)), parts, clock);
  }

  lemma PermissionNamesKey()
    ensures Includes(PermissionMessage, "API Key")
  {
    IncludesInfix("Permission Denied: Please check your ", "API Key",
                  ". You may need to enable the Gemini API in your Google Cloud Console or use a paid project for Image generation.");
  }

  lemma GenerateKeepsValid(s: State, coach: Result<CoachSession, Failure>, image: Result<string, Failure>,
                           parts: Result<seq<Part>, Failure>, clock: Clock)
    requires ValidState(s)
    ensures ValidState(GenerateStep(s, coach, image, parts, clock))
  {
    if Dispatches(s.params) {
      var r0 := Reset(s, coach, clock);
      SettleKeepsValid(r0, s.params, Join(image, parts), clock);
    }
  }

  lemma SettleKeepsValid(s: State, p: GenerationParams, outcome: Result<(string, seq<Part>), Failure>, clock: Clock)
    requires forall img :: img in s.history ==> WellFormedImage(img)
    requires s.currentResult.None? && s.currentParts == [] && !s.isAnalyzing
    requires Dispatches(p)
    ensures ValidState(Settle(s, p, outcome, clock))
  {
  }

  // ---------------------------------------------------------------------
  // deleteHistoryItem

  /** `filter(item => item.id !== id)`. */
  function WithoutId(h: seq<GeneratedImage>, id: string): (r: seq<GeneratedImage>)
    ensures |r| <= |h|
    ensures forall img :: img in r <==> img in h && img.id != id
  {
    if h == [] then []
    else (if h[0].id != id then [h[0]] else []) + WithoutId(h[1..], id)
  }

  /** The filter works item by item, so it keeps the survivors' relative order. */
  lemma {:induction false} WithoutIdAppend(a: seq<GeneratedImage>, b: seq<GeneratedImage>, id: string)
    ensures WithoutId(a + b, id) == WithoutId(a, id) + WithoutId(b, id)
  {
    if a == [] {
      assert a + b == b;
    } else {
      assert (a + b)[1..] == a[1..] + b;
      WithoutIdAppend(a[1..], b, id);
    }
  }

  /** Nothing to delete leaves the history as it was; deleting twice is deleting once. */
  lemma {:induction false} WithoutIdAbsent(h: seq<GeneratedImage>, id: string)
    requires forall i :: 0 <= i < |h| ==> h[i].id != id
    ensures WithoutId(h, id) == h
  {
    if h != [] {
      WithoutIdAbsent(h[1..], id);
    }
  }

  lemma WithoutIdIdempotent(h: seq<GeneratedImage>, id: string)
    ensures WithoutId(WithoutId(h, id), id) == WithoutId(h, id)
  {
    var r := WithoutId(h, id);
    forall i | 0 <= i < |r|
      ensures r[i].id != id
    {
      assert r[i] in r;
    }
    WithoutIdAbsent(r, id);
  }

  /** With unique ids, deleting the id at position k removes exactly that item. */
  lemma WithoutIdUnique(h: seq<GeneratedImage>, k: nat)
    requires k < |h|
    requires forall i, j :: 0 <= i < j < |h| ==> h[i].id != h[j].id
    ensures WithoutId(h, h[k].id) == h[..k] + h[k + 1..]
  {
    var before, after := h[..k], h[k + 1..];
    forall i | 0 <= i < |before| ensures before[i].id != h[k].id { assert before[i] == h[i]; }
    forall i | 0 <= i < |after| ensures after[i].id != h[k].id { assert after[i] == h[k + 1 + i]; }
    assert h == before + [h[k]] + after;
    WithoutIdSplice(before, h[k], after);
  }

  /** An item whose id no other item has is removed, and only it. */
  lemma WithoutIdSplice(before: seq<GeneratedImage>, x: GeneratedImage, after: seq<GeneratedImage>)
    requires forall i :: 0 <= i < |before| ==> before[i].id != x.id
    requires forall i :: 0 <= i < |after| ==> after[i].id != x.id
    ensures WithoutId(before + [x] + after, x.id) == before + after
  {
    calc {
      WithoutId(before + [x] + after, x.id);
      { WithoutIdAppend(before + [x], after, x.id); }
      WithoutId(before + [x], x.id) + WithoutId(after, x.id);
      { WithoutIdAppend(before, [x], x.id); }
      WithoutId(before, x.id) + WithoutId([x], x.id) + WithoutId(after, x.id);
      { WithoutIdAbsent(before, x.id); WithoutIdAbsent(after, x.id); WithoutIdDrops(x); assert before + [] == before; }
      before + after;
    }
  }

  lemma WithoutIdDrops(x: GeneratedImage)
    ensures WithoutId([x], x.id) == []
  {
    assert [x][1..] == [];
  }

  function DeleteStep(s: State, id: string): State
  {
    s.(history := WithoutId(s.history, id))
  }

  lemma DeleteKeepsValid(s: State, id: string)
    requires ValidState(s)
    ensures ValidState(DeleteStep(s, id))
    ensures DeleteStep(s, id).currentResult == s.currentResult
  {
  }

  // ---------------------------------------------------------------------
  // handleSendMessage

  /** The state after `handleSendMessage`: a blank input or no coach changes nothing. */
  function SendStep(s: State, reply: Reply<Option<string>>, sentAt: int, repliedAt: int): State
  {
    if Trim(s.chatInput) == "" || s.coachChat.None? then s else Exchange(s, reply, sentAt, repliedAt)
  }

  /** One exchange with the coach: the user's turn, then the answer or the apology; the input box is cleared. */
  function Exchange(s: State, reply: Reply<Option<string>>, sentAt: int, repliedAt: int): State
    requires s.coachChat.Some?
  {
    var (coach, answer) := SendToCoach(s.coachChat.value, s.chatInput, reply);
    var text := if answer.Ok? then answer.value else ChatApology;
    s.(chatMessages := s.chatMessages + [ChatMessage(User, s.chatInput, sentAt), ChatMessage(Model, text, repliedAt)],
       chatInput := "",
       coachChat := Some(coach))
  }

  /**
   * Sending is a no-op exactly on whitespace-only input or without a
   * coach; otherwise the transcript gains the user's message and then one
   * reply: the reply text, "" for none, or the apology on failure.
   */
  lemma SendAppendsTurn(s: State, reply: Reply<Option<string>>, sentAt: int, repliedAt: int)
    ensures IsBlank(s.chatInput) || s.coachChat.None? ==> SendStep(s, reply, sentAt, repliedAt) == s
    ensures !IsBlank(s.chatInput) && s.coachChat.Some? ==>
      var r := SendStep(s, reply, sentAt, repliedAt);
      |r.chatMessages| == |s.chatMessages| + 2 && r.chatMessages[..|s.chatMessages|] == s.chatMessages
      && r.chatMessages[|s.chatMessages|] == ChatMessage(User, s.chatInput, sentAt)
      && r.chatMessages[|s.chatMessages| + 1].role == Model
      && r.chatMessages[|s.chatMessages| + 1].text
         == (match reply
             case Thrown(_) => ChatApology
             case Answered(t) => if t.Some? then t.value else "")
      && r.chatInput == ""
      && r.coachChat.value.sent == s.coachChat.value.sent + (if reply.Answered? then [s.chatInput] else [])
      && r.history == s.history && r.params == s.params && r.error == s.error
  {
    TrimEmptyIffBlank(s.chatInput);
    if !IsBlank(s.chatInput) && s.coachChat.Some? {
      var (coach, answer) := SendToCoach(s.coachChat.value, s.chatInput, reply);
      assert SendStep(s, reply, sentAt, repliedAt).coachChat == Some(coach);
    }
  }

  // ---------------------------------------------------------------------
  // handleImageUploaded

  /** The analysis category as the form's category: organisms are organic, electronics stay, anything else is technical. */
  function AppCategory(c: AnalysisCategory): (r: Category)
    ensures r.Organic? <==> c.Organism?
    ensures r.Electronics? <==> c.ElectronicsDevice?
    ensures r.Technical? <==> c.TechnicalProduct? || c.UnknownKind?
  {
    if c == Organism then Organic
    else if c == ElectronicsDevice then Electronics
    else Technical
  }

  /**
   * The state after `handleImageUploaded` has run to its end, given what
   * `analyzeImage(image, params.userHint)` gave (it is not called for an
   * empty image).
   */
  function UploadStep(s: State, image: string, analysis: Result<Option<AnalysisResult>, Failure>): State
  {
    var s1 := s.(params := s.params.(referenceImage := Some(image)));
    if image == "" then s1.(analysisResult := None) else Autofill(s1, image, analysis)
  }

  /** What the analysis does to the form: a result fills it, a failure is reported, nothing found leaves it. */
  function Autofill(s: State, image: string, analysis: Result<Option<AnalysisResult>, Failure>): State
  {
    match analysis
    case Err(_) => s.(error := Some(AnalysisFailedMessage))
    case Ok(None) => s.(error := None)
    case Ok(Some(a)) =>
      s.(error := None, analysisResult := Some(a),
         params := s.params.(objectName := a.canonicalName, category := AppCategory(a.category),
                             referenceImage := Some(image), aspectRatio := Ratio1x1))
  }

  /**
   * An analysis fills in the name, the mapped category and the square
   * ratio and keeps the rest of the form; no analysis changes only the
   * reference in the form; a failed call (the missing key) leaves the
   * auto-fill message; the history is never touched.
   */
  lemma UploadAutofill(s: State, image: string, analysis: Result<Option<AnalysisResult>, Failure>)
    ensures var r := UploadStep(s, image, analysis);
      r.params.referenceImage == Some(image) && r.history == s.history && r.currentResult == s.currentResult
      && r.params.showLabels == s.params.showLabels && r.params.isKidFriendly == s.params.isKidFriendly
      && r.params.mode == s.params.mode && r.params.detailLevel == s.params.detailLevel
      && r.params.userHint == s.params.userHint && r.isAnalyzing == s.isAnalyzing
    ensures image != "" && analysis.Ok? && analysis.value.Some? ==>
      var a := analysis.value.value;
      var r := UploadStep(s, image, analysis);
      r.params.objectName == a.canonicalName && r.params.category == AppCategory(a.category)
      && r.params.aspectRatio == Ratio1x1 && r.analysisResult == Some(a) && r.error.None?
    ensures image == "" || !(analysis.Ok? && analysis.value.Some?) ==>
      UploadStep(s, image, analysis).params == s.params.(referenceImage := Some(image))
    ensures image != "" && analysis.Err? ==> UploadStep(s, image, analysis).error == Some(AnalysisFailedMessage)
    ensures image == "" ==> UploadStep(s, image, analysis).analysisResult.None?
  {
    if image != "" {
      match analysis {
        case Err(_) =>
        case Ok(None) =>
        case Ok(Some(a)) =>
      }
    }
  }

  lemma UploadKeepsValid(s: State, image: string, analysis: Result<Option<AnalysisResult>, Failure>)
    requires ValidState(s)
    ensures ValidState(UploadStep(s, image, analysis))
  {
  }

  // ---------------------------------------------------------------------
  // loadPreset

  /** `{ ...prev, ...presetParams, mode: 'text' }`. */
  function MergePreset(prev: GenerationParams, pp: PartialParams): (r: GenerationParams)
  {
    GenerationParams(
      if pp.objectName.Some? then pp.objectName.value else prev.objectName,
      if pp.category.Some? then pp.category.value else prev.category,
      if pp.aspectRatio.Some? then pp.aspectRatio.value else prev.aspectRatio,
      if pp.detailLevel.Some? then pp.detailLevel.value else prev.detailLevel,
      if pp.showLabels.Some? then pp.showLabels.value else prev.showLabels,
      if pp.isKidFriendly.Some? then pp.isKidFriendly.value else prev.isKidFriendly,
      TextMode,
      if pp.referenceImage.Some? then pp.referenceImage else prev.referenceImage,
      if pp.userHint.Some? then pp.userHint else prev.userHint)
  }

  function PresetStep(s: State, pp: PartialParams): State
  {
    s.(params := MergePreset(s.params, pp), currentPage := "studio")
  }

  /** Loading any preset forces text mode, writes its name, ratio and detail, and keeps the category and the rest of the form. */
  lemma PresetLoad(s: State, i: nat)
    requires i < |Presets|
    ensures var r := PresetStep(s, Presets[i].params);
      r.params.mode == TextMode && r.currentPage == "studio"
      && r.params.objectName == Presets[i].params.objectName.value
      && (Presets[i].params.aspectRatio.Some? ==> r.params.aspectRatio == Presets[i].params.aspectRatio.value)
      && (Presets[i].params.detailLevel.Some? ==> r.params.detailLevel == Presets[i].params.detailLevel.value)
      && r.params.category == s.params.category
      && r.params.showLabels == s.params.showLabels && r.params.isKidFriendly == s.params.isKidFriendly
      && r.params.referenceImage == s.params.referenceImage && r.params.userHint == s.params.userHint
      && r.history == s.history && r.error == s.error
  {
    PresetsShape(i);
  }

  /**
   * Whatever the partial parameters say, the merge ends in text mode, takes
   * each given field and keeps each absent one from the previous form.
   */
  lemma MergePresetFields(prev: GenerationParams, pp: PartialParams)
    ensures MergePreset(prev, pp).mode == TextMode
    ensures MergePreset(prev, pp).objectName == (if pp.objectName.Some? then pp.objectName.value else prev.objectName)
    ensures MergePreset(prev, pp).category == (if pp.category.Some? then pp.category.value else prev.category)
    ensures MergePreset(prev, pp).aspectRatio == (if pp.aspectRatio.Some? then pp.aspectRatio.value else prev.aspectRatio)
    ensures MergePreset(prev, pp).detailLevel == (if pp.detailLevel.Some? then pp.detailLevel.value else prev.detailLevel)
    ensures MergePreset(prev, pp).showLabels == (if pp.showLabels.Some? then pp.showLabels.value else prev.showLabels)
    ensures MergePreset(prev, pp).isKidFriendly == (if pp.isKidFriendly.Some? then pp.isKidFriendly.value else prev.isKidFriendly)
    ensures MergePreset(prev, pp).referenceImage == (if pp.referenceImage.Some? then pp.referenceImage else prev.referenceImage)
    ensures MergePreset(prev, pp).userHint == (if pp.userHint.Some? then pp.userHint else prev.userHint)
    ensures pp.mode.None? && prev.mode == TextMode && pp == NoParams ==> MergePreset(prev, pp) == prev
  {
  }

  // ---------------------------------------------------------------------
  // The component

  class Session {
    var params: GenerationParams
    var history: seq<GeneratedImage>
    var currentResult: Option<GeneratedImage>
    var currentParts: seq<Part>
    var chatMessages: seq<ChatMessage>
    var chatInput: string
    var coachChat: Option<CoachSession>
    var error: Option<string>
    var hasApiKey: bool
    var isGenerating: bool
    var isAnalyzing: bool
    var analysisResult: Option<AnalysisResult>
    var currentPage: string

    function Snapshot(): State
      reads this
    {
      State(params, history, currentResult, currentParts, chatMessages, chatInput, coachChat, error,
            hasApiKey, isGenerating, isAnalyzing, analysisResult, currentPage)
    }

    predicate Valid()
      reads this
    {
      ValidState(Snapshot())
    }

    /** The component's first render, after the key check reported `hasKey`. */
    constructor (hasKey: bool)
      ensures Snapshot() == Initial(hasKey) && Valid()
    {
      params := DefaultParams;
      history := [];
      currentResult := None;
      currentParts := [];
      chatMessages := [];
      chatInput := "";
      coachChat := None;
      error := None;
      hasApiKey := hasKey;
      isGenerating := false;
      isAnalyzing := false;
      analysisResult := None;
      currentPage := "home";
    }

    /** `handleGenerate`, given what `createCoachChat`, the image call and the parts call gave. */
    method Generate(coach: Result<CoachSession, Failure>, image: Result<string, Failure>, parts: Result<seq<Part>, Failure>, clock: Clock)
      requires Valid()
      modifies this
      ensures Valid()
      ensures Snapshot() == GenerateStep(old(Snapshot()), coach, image, parts, clock)
    {
      GenerateKeepsValid(Snapshot(), coach, image, parts, clock);
      TrimEmptyIffBlank(params.objectName);
      if Trim(params.objectName) == "" {
        return;
      }
      if params.mode == PhotoMode && !Truthy(params.referenceImage) {
        error := Some(PhotoRequiredMessage);
        return;
      }
      RunGeneration(coach, image, parts, clock);
    }

    /** `handleGenerate` past its two guards: the coach is created, the state reset, and the joined outcome settled. */
    method RunGeneration(coach: Result<CoachSession, Failure>, image: Result<string, Failure>, parts: Result<seq<Part>, Failure>, clock: Clock)
      modifies this
      ensures Snapshot() == Settle(Reset(old(Snapshot()), coach, clock), old(params), Join(image, parts), clock)
    {
      var p := params;
      ResetForGeneration(coach, clock);
      SettleGeneration(p, Join(image, parts), clock);
    }

    /** The reset before the calls: the flag goes up, the previous outcome is cleared and the coach, if any, greets. */
    method ResetForGeneration(coach: Result<CoachSession, Failure>, clock: Clock)
      modifies this
      ensures Snapshot() == Reset(old(Snapshot()), coach, clock)
    {
      ClearOutcome();
      Greet(coach, clock);
    }

    method ClearOutcome()
      modifies this`isGenerating, this`error, this`currentResult, this`currentParts
      ensures isGenerating && error == None && currentResult == None && currentParts == []
    {
      isGenerating, error, currentResult, currentParts := true, None, None, [];
    }

    /** The chat is reset; a coach that could be created greets and replaces the previous one. */
    method Greet(coach: Result<CoachSession, Failure>, clock: Clock)
      modifies this`coachChat, this`chatMessages
      ensures chatMessages == (if coach.Ok? then [ChatMessage(Model, Greeting(params.objectName), clock.greetingTime)] else [])
      ensures coachChat == (if coach.Ok? then Some(coach.value) else old(coachChat))
    {
      if coach.Ok? {
        coachChat, chatMessages := Some(coach.value), [ChatMessage(Model, Greeting(params.objectName), clock.greetingTime)];
      } else {
        chatMessages := [];
      }
    }

    /** The `try` after `Promise.all`, its `catch` and its `finally`. */
    method SettleGeneration(p: GenerationParams, outcome: Result<(string, seq<Part>), Failure>, clock: Clock)
      modifies this
      ensures Snapshot() == Settle(old(Snapshot()), p, outcome, clock)
    {
      if outcome.Ok? {
        StoreImage(NewImage(p, outcome.value.0, outcome.value.1, clock));
      } else {
        ReportFailure(ErrorMessage(outcome.error));
      }
      isGenerating := false;
    }

    /** The new image becomes the current result and heads the history. */
    method StoreImage(img: GeneratedImage)
      requires img.parts.Some?
      modifies this`currentResult, this`currentParts, this`history
      ensures currentResult == Some(img) && currentParts == img.parts.value && history == [img] + old(history)
    {
      currentResult, currentParts, history := Some(img), img.parts.value, [img] + history;
    }

    /** The `catch`: an authorization failure revokes the key, any other failure is shown. */
    method ReportFailure(m: string)
      modifies this`error, this`hasApiKey
      ensures error == Some(if IsAuthorizationError(m) then AuthFailedMessage else if m != "" then m else GenericFailureMessage)
      ensures hasApiKey == (old(hasApiKey) && !IsAuthorizationError(m))
    {
      if IsAuthorizationError(m) {
        error, hasApiKey := Some(AuthFailedMessage), false;
      } else {
        error := Some(if m != "" then m else GenericFailureMessage);
      }
    }

    method DeleteHistoryItem(id: string)
      requires Valid()
      modifies this
      ensures Valid()
      ensures Snapshot() == DeleteStep(old(Snapshot()), id)
    {
      DeleteKeepsValid(Snapshot(), id);
      history := WithoutId(history, id);
    }

    method SendMessage(reply: Reply<Option<string>>, sentAt: int, repliedAt: int)
      requires Valid()
      modifies this
      ensures Valid()
      ensures Snapshot() == SendStep(old(Snapshot()), reply, sentAt, repliedAt)
    {
      if Trim(chatInput) == "" || coachChat.None? {
        return;
      }
      Converse(reply, sentAt, repliedAt);
    }

    /** `handleSendMessage` past its guard. */
    method Converse(reply: Reply<Option<string>>, sentAt: int, repliedAt: int)
      requires coachChat.Some?
      modifies this
      ensures Snapshot() == Exchange(old(Snapshot()), reply, sentAt, repliedAt)
    {
      var userMsg := chatInput;
      AddUserTurn(sentAt);
      var (coach, answer) := SendToCoach(coachChat.value, userMsg, reply);
      AddCoachTurn(coach, if answer.Ok? then answer.value else ChatApology, repliedAt);
    }

    /** The user's message joins the conversation and the input box is cleared. */
    method AddUserTurn(sentAt: int)
      modifies this`chatMessages, this`chatInput
      ensures chatMessages == old(chatMessages) + [ChatMessage(User, old(chatInput), sentAt)] && chatInput == ""
    {
      chatMessages, chatInput := chatMessages + [ChatMessage(User, chatInput, sentAt)], "";
    }

    /** The coach's answer, or the apology, joins the conversation; the session holds the new turn. */
    method AddCoachTurn(coach: CoachSession, text: string, repliedAt: int)
      modifies this`chatMessages, this`coachChat
      ensures chatMessages == old(chatMessages) + [ChatMessage(Model, text, repliedAt)] && coachChat == Some(coach)
    {
      chatMessages, coachChat := chatMessages + [ChatMessage(Model, text, repliedAt)], Some(coach);
    }

    /** `handleImageUploaded`, given what the analysis call gave. */
    method ImageUploaded(image: string, analysis: Result<Option<AnalysisResult>, Failure>)
      requires Valid()
      modifies this
      ensures Valid()
      ensures Snapshot() == UploadStep(old(Snapshot()), image, analysis)
    {
      UploadKeepsValid(Snapshot(), image, analysis);
      params := params.(referenceImage := Some(image));
      if image == "" {
        analysisResult := None;
      } else {
        Analyze(image, analysis);
      }
    }

    /** The analysis runs with the in-flight flag up, which the `finally` lowers. */
    method Analyze(image: string, analysis: Result<Option<AnalysisResult>, Failure>)
      requires !isAnalyzing
      modifies this
      ensures Snapshot() == Autofill(old(Snapshot()), image, analysis)
    {
      isAnalyzing := true;
      ApplyAnalysis(image, analysis);
      isAnalyzing := false;
    }

    /** The `try` of `handleImageUploaded` and its `catch`: the error is cleared, then the analysis fills the form or the failure is shown. */
    method ApplyAnalysis(image: string, analysis: Result<Option<AnalysisResult>, Failure>)
      modifies this`error, this`analysisResult, this`params
      ensures Snapshot() == Autofill(old(Snapshot()), image, analysis)
    {
      error := None;
      if analysis.Err? {
        error := Some(AnalysisFailedMessage);
      } else if analysis.value.Some? {
        var a := analysis.value.value;
        analysisResult := Some(a);
        params := params.(objectName := a.canonicalName, category := AppCategory(a.category),
                          referenceImage := Some(image), aspectRatio := Ratio1x1);
      }
    }

    method LoadPreset(pp: PartialParams)
      requires Valid()
      modifies this
      ensures Valid()
      ensures Snapshot() == PresetStep(old(Snapshot()), pp)
    {
      params := MergePreset(params, pp);
      currentPage := "studio";
    }
  }
}
