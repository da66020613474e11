/**
 * The Gemini service layer (services/geminiService.ts): which model and
 * configuration a request uses, what it carries, how a reply becomes a
 * result, and which failures are rewritten.
 *
 * The SDK is not modelled: each call is a function parameter from the
 * request the service builds to the reply the SDK gives (`Answered`) or
 * the exception it throws (`Thrown`). `JSON.parse` of a reply text is a
 * parameter too. The environment's API key is the parameter `apiKey`.
 */
module Gemini {
  import opened Types
  import opened JsText
  import opened Templates
  import opened Prompt

  const ProImageModel := "gemini-3-pro-image-preview"
  const FlashImageModel := "gemini-2.5-flash-image"
  const TextModel := "gemini-2.5-flash"

  /**
   * A thrown value: its `message` and its `JSON.stringify` text. An
   * `Error` built by the service serialises to "{}" (its `message` is not
   * an enumerable property); an SDK error may serialise to anything.
   */
  datatype Failure = Failure(message: string, serialized: string)

  function Raised(message: string): Failure
  {
    Failure(message, "{}")
  }

  /** "API Key is missing.", written so that the words "API Key" stand apart. */
  const MissingKeyMessage := "API Key" + " is missing."
  const NoImageMessage := "No image data found in response"
  /** The fixed permission error; it is written in three parts so that the words "API Key" in it can be pointed at. */
  const PermissionMessage := "Permission Denied: Please check your " + "API Key"
    + ". You may need to enable the Gemini API in your Google Cloud Console or use a paid project for Image generation."

  function StoppedMessage(reason: string): string
  {
    "Generation stopped. Reason: " + reason + ". The content might have violated safety policies."
  }

  // ---------------------------------------------------------------------
  // Requests and replies

  datatype ContentPart = TextPart(text: string) | InlineData(mimeType: string, data: string)

  datatype ImageConfig = ImageConfig(aspectRatio: string, imageSize: Option<string>)

  datatype ImageRequest = ImageRequest(model: string, parts: seq<ContentPart>, config: ImageConfig)

  /** The response schema a text request asks for. */
  datatype Schema = PartsSchema | AnalysisSchema

  datatype TextRequest = TextRequest(model: string, parts: seq<ContentPart>, schema: Schema)

  datatype Blob = Blob(mimeType: string, data: string)

  datatype ResponsePart = ResponsePart(text: Option<string>, inlineData: Option<Blob>)

  /** A candidate; `parts` is absent when the candidate has no content or its content no parts. */
  datatype Candidate = Candidate(parts: Option<seq<ResponsePart>>, finishReason: Option<string>)

  datatype Reply<+T> = Answered(value: T) | Thrown(failure: Failure)

  /** `process.env.API_KEY` is checked for truthiness before anything else. */
  function Client(apiKey: Option<string>): (r: Result<string, Failure>)
    ensures r.Ok? <==> Truthy(apiKey)
    ensures r.Ok? ==> Some(r.value) == apiKey
    ensures r.Err? ==> r.error == Raised(MissingKeyMessage)
  {
    if Truthy(apiKey) then Ok(apiKey.value) else Err(Raised(MissingKeyMessage))
  }

  // ---------------------------------------------------------------------
  // generateImage

  /** High and Ultra go to the pro image model, Standard to the flash image model. */
  function ImageModelFor(d: DetailLevel): string
  {
    if d == High || d == Ultra then ProImageModel else FlashImageModel
  }

  function ImageConfigFor(p: GenerationParams): ImageConfig
  {
    var model := ImageModelFor(p.detailLevel);
    ImageConfig(AspectRatioText(p.aspectRatio), if model == ProImageModel then Some("4K") else None)
  }

  /** The prompt first, then the reference image when photo mode has one. */
  function ImageParts(p: GenerationParams, prompt: string): seq<ContentPart>
  {
    [TextPart(prompt)]
    + if p.mode == PhotoMode && Truthy(p.referenceImage) then
        [InlineData("image/png", StripDataUrlPrefix(p.referenceImage.value))]
      else []
  }

  function ImageRequestFor(p: GenerationParams, prompt: string): ImageRequest
  {
    ImageRequest(ImageModelFor(p.detailLevel), ImageParts(p, prompt), ImageConfigFor(p))
  }

  /** The 4K tier: the pro model and a 4K image size exactly for High and Ultra; the requested ratio always. */
  lemma TierSelection(p: GenerationParams, prompt: string)
    ensures ImageRequestFor(p, prompt).model == ProImageModel <==> p.detailLevel != Standard
    ensures ImageRequestFor(p, prompt).model == FlashImageModel <==> p.detailLevel == Standard
    ensures ImageRequestFor(p, prompt).config.imageSize == Some("4K") <==> p.detailLevel != Standard
    ensures ImageRequestFor(p, prompt).config.imageSize.None? <==> p.detailLevel == Standard
    ensures ImageRequestFor(p, prompt).config.aspectRatio == AspectRatioText(p.aspectRatio)
  {
    assert ProImageModel != FlashImageModel by {
      assert |ProImageModel| != |FlashImageModel|;
    }
  }

  /**
   * The reference image is attached exactly in photo mode with a non-empty
   * reference, after the prompt, as PNG; a data URL is sent without its
   * header.
   */
  lemma ReferenceAttachment(p: GenerationParams, prompt: string)
    ensures ImageParts(p, prompt)[0] == TextPart(prompt)
    ensures |ImageParts(p, prompt)| == 2 <==> p.mode == PhotoMode && Truthy(p.referenceImage)
    ensures |ImageParts(p, prompt)| == 1 <==> !(p.mode == PhotoMode && Truthy(p.referenceImage))
    ensures |ImageParts(p, prompt)| == 2 ==>
              ImageParts(p, prompt)[1] == InlineData("image/png", StripDataUrlPrefix(p.referenceImage.value))
  {
  }

  /** A data URL `<header>,<payload>` reaches the service as just its payload; a bare payload is sent as it is. */
  lemma ReferencePayload(p: GenerationParams, prompt: string, header: string, payload: string)
    requires p.mode == PhotoMode
    requires Lacks(header, ',') && Lacks(payload, ',') && payload != ""
    ensures p.referenceImage == Some(header + "," + payload) ==>
              ImageParts(p, prompt) == [TextPart(prompt), InlineData("image/png", payload)]
    ensures p.referenceImage == Some(payload) ==>
              ImageParts(p, prompt) == [TextPart(prompt), InlineData("image/png", payload)]
  {
    StripAfterHeader(header, payload);
  }

  /** The data of the first response part that carries inline data. */
  function FirstImageData(parts: seq<ResponsePart>): (r: Option<string>)
    ensures r.None? <==> forall i :: 0 <= i < |parts| ==> parts[i].inlineData.None?
    ensures r.Some? ==>
              exists i :: 0 <= i < |parts| && parts[i].inlineData.Some? && parts[i].inlineData.value.data == r.value
                          && forall j :: 0 <= j < i ==> parts[j].inlineData.None?
  {
    if parts == [] then None
    else if parts[0].inlineData.Some? then Some(parts[0].inlineData.value.data)
    else
      var r := FirstImageData(parts[1..]);
      assert forall i :: 1 <= i < |parts| ==> parts[i] == parts[1..][i - 1];
      r
  }

  /** The loop over the first candidate's parts. */
  method ScanForImage(parts: seq<ResponsePart>) returns (found: Option<string>)
    ensures found == FirstImageData(parts)
  {
    var i := 0;
    while i < |parts|
      invariant 0 <= i <= |parts|
      invariant FirstImageData(parts) == FirstImageData(parts[i..])
    {
      if parts[i].inlineData.Some? {
        return Some(parts[i].inlineData.value.data);
      }
      assert parts[i..][1..] == parts[i + 1..];
      i := i + 1;
    }
    return None;
  }

  const PngHeader := "data:image/png;base64"

  function PngDataUrl(data: string): string
  {
    PngHeader + "," + data
  }

  /** What the body of the `try` makes of the candidates: a PNG data URL, or the failure it throws. */
  function ExtractImage(candidates: seq<Candidate>): Result<string, Failure>
  {
    var found := if |candidates| > 0 && candidates[0].parts.Some? then FirstImageData(candidates[0].parts.value) else None;
    if found.Some? then Ok(PngDataUrl(found.value))
    else if |candidates| > 0 && Truthy(candidates[0].finishReason) then
      Err(Raised(StoppedMessage(candidates[0].finishReason.value)))
    else Err(Raised(NoImageMessage))
  }

  /** The `catch`: a failure that mentions 403 in its serialisation or its message becomes the permission error. */
  function Rewrite(f: Failure): Failure
  {
    if Includes(f.serialized, "403") || Includes(f.message, "403") then Raised(PermissionMessage) else f
  }

  /** `generateImage` as a function of its inputs and the service's reply. */
  function ImageOutcome(p: GenerationParams, apiKey: Option<string>, parses: ImageTemplate -> bool,
                        service: ImageRequest -> Reply<seq<Candidate>>): Result<string, Failure>
  {
    match Client(apiKey)
    case Err(f) => Err(f)
    case Ok(_) =>
      match service(ImageRequestFor(p, BuildPrompt(p, parses)))
      case Thrown(f) => Err(Rewrite(f))
      case Answered(candidates) =>
        match ExtractImage(candidates)
        case Ok(url) => Ok(url)
        case Err(f) => Err(Rewrite(f))
  }

  method GenerateImage(p: GenerationParams, apiKey: Option<string>, parses: ImageTemplate -> bool,
                       service: ImageRequest -> Reply<seq<Candidate>>) returns (r: Result<string, Failure>)
    ensures r == ImageOutcome(p, apiKey, parses, service)
  {
    if !Truthy(apiKey) {
      return Err(Raised(MissingKeyMessage));
    }
    var prompt := BuildPrompt(p, parses);
    var reply := service(ImageRequestFor(p, prompt));
    if reply.Thrown? {
      return Err(Rewrite(reply.failure));
    }
    var candidates := reply.value;
    var found := None;
    if |candidates| > 0 && candidates[0].parts.Some? {
      found := ScanForImage(candidates[0].parts.value);
    }
    if found.Some? {
      return Ok(PngDataUrl(found.value));
    }
    if |candidates| > 0 && Truthy(candidates[0].finishReason) {
      return Err(Rewrite(Raised(StoppedMessage(candidates[0].finishReason.value))));
    }
    return Err(Rewrite(Raised(NoImageMessage)));
  }

  /** Without a key the service is never asked: every service gives the same missing-key failure, which is not rewritten. */
  lemma MissingKeyBeforeService(p: GenerationParams, apiKey: Option<string>, parses: ImageTemplate -> bool,
                                s1: ImageRequest -> Reply<seq<Candidate>>, s2: ImageRequest -> Reply<seq<Candidate>>)
    requires !Truthy(apiKey)
    ensures ImageOutcome(p, apiKey, parses, s1) == ImageOutcome(p, apiKey, parses, s2) == Err(Raised(MissingKeyMessage))
  {
  }

  /**
   * With a key, the service is asked exactly once, with the resolved
   * prompt; a success is the PNG data URL of the first inline part of the
   * first candidate, and stripping its header gives the image data back.
   */
  lemma ImageSuccess(p: GenerationParams, apiKey: Option<string>, parses: ImageTemplate -> bool,
                     service: ImageRequest -> Reply<seq<Candidate>>)
    requires ImageOutcome(p, apiKey, parses, service).Ok?
    ensures Truthy(apiKey)
    ensures var reply := service(ImageRequestFor(p, BuildPrompt(p, parses)));
      reply.Answered? && |reply.value| > 0 && reply.value[0].parts.Some?
      && var data := FirstImageData(reply.value[0].parts.value);
         data.Some? && ImageOutcome(p, apiKey, parses, service) == Ok(PngDataUrl(data.value))
         && (Lacks(data.value, ',') && data.value != "" ==>
               StripDataUrlPrefix(ImageOutcome(p, apiKey, parses, service).value) == data.value)
  {
    var reply := service(ImageRequestFor(p, BuildPrompt(p, parses)));
    var data := FirstImageData(reply.value[0].parts.value);
    if Lacks(data.value, ',') && data.value != "" {
      PngHeaderPlain();
      StripAfterHeader(PngHeader, data.value);
    }
  }

  lemma PngHeaderPlain()
    ensures Lacks(PngHeader, ',')
  {
  }

  /** An exception from the service that mentions 403 becomes the permission error; any other is passed on as it was. */
  lemma ServiceFailureRewritten(p: GenerationParams, apiKey: Option<string>, parses: ImageTemplate -> bool,
                                service: ImageRequest -> Reply<seq<Candidate>>, f: Failure)
    requires Truthy(apiKey)
    requires service(ImageRequestFor(p, BuildPrompt(p, parses))) == Thrown(f)
    ensures Includes(f.serialized, "403") || Includes(f.message, "403") ==>
              ImageOutcome(p, apiKey, parses, service) == Err(Raised(PermissionMessage))
    ensures !(Includes(f.serialized, "403") || Includes(f.message, "403")) ==>
              ImageOutcome(p, apiKey, parses, service) == Err(f)
  {
  }

  /**
   * A reply with no image fails: with the stop reason when the first
   * candidate has a non-empty finish reason, else with "no image data";
   * either message goes through the same 403 rewrite.
   */
  lemma NoImageFailure(p: GenerationParams, apiKey: Option<string>, parses: ImageTemplate -> bool,
                       service: ImageRequest -> Reply<seq<Candidate>>, candidates: seq<Candidate>)
    requires Truthy(apiKey)
    requires service(ImageRequestFor(p, BuildPrompt(p, parses))) == Answered(candidates)
    requires |candidates| > 0 ==> candidates[0].parts.None? || forall i :: 0 <= i < |candidates[0].parts.value| ==>
                                                                  candidates[0].parts.value[i].inlineData.None?
    ensures |candidates| > 0 && Truthy(candidates[0].finishReason) ==>
              ImageOutcome(p, apiKey, parses, service)
              == Err(Rewrite(Raised(StoppedMessage(candidates[0].finishReason.value))))
    ensures !(|candidates| > 0 && Truthy(candidates[0].finishReason)) ==>
              ImageOutcome(p, apiKey, parses, service) == Err(Rewrite(Raised(NoImageMessage)))
  {
  }

  // ---------------------------------------------------------------------
  // generateObjectParts

  /** PARTS_GENERATION_PROMPT with its first `{CATEGORY}`, then its first `{OBJECT_NAME}`, replaced. */
  function PartsPrompt(p: GenerationParams): string
  {
    Render(FillFirst(FillFirst(PartsGenerationPrompt, CategorySlot, CategoryText(p.category)), ObjectNameSlot, p.objectName))
  }

  function PartsRequest(p: GenerationParams): TextRequest
  {
    TextRequest(TextModel, [TextPart(PartsPrompt(p))], PartsSchema)
  }

  /**
   * `generateObjectParts`: an empty or missing reply text reads as "[]";
   * a failed call or a text that does not parse gives the empty list.
   * `parseParts` stands for `JSON.parse(text) as Part[]`.
   */
  function PartsOutcome(p: GenerationParams, apiKey: Option<string>,
                        service: TextRequest -> Reply<Option<string>>,
                        parseParts: string -> Option<seq<Part>>): (r: Result<seq<Part>, Failure>)
    ensures r.Err? <==> !Truthy(apiKey)
    ensures r.Err? ==> r.error == Raised(MissingKeyMessage)
  {
    match Client(apiKey)
    case Err(f) => Err(f)
    case Ok(_) =>
      match service(PartsRequest(p))
      case Thrown(_) => Ok([])
      case Answered(text) =>
        if !Truthy(text) then Ok([])
        else match parseParts(text.value)
          case None => Ok([])
          case Some(ps) => Ok(ps)
  }

  /** With a key the parts call never fails: a non-empty reply that parses is returned as parsed, and every other case is the empty list. */
  lemma PartsNeverFail(p: GenerationParams, apiKey: Option<string>, service: TextRequest -> Reply<Option<string>>,
                       parseParts: string -> Option<seq<Part>>)
    requires Truthy(apiKey)
    ensures PartsOutcome(p, apiKey, service, parseParts).Ok?
    ensures var r := PartsOutcome(p, apiKey, service, parseParts).value;
      r != [] ==> exists t :: service(PartsRequest(p)) == Answered(Some(t)) && t != "" && parseParts(t) == Some(r)
    ensures var reply := service(PartsRequest(p));
      reply.Answered? && Truthy(reply.value) && parseParts(reply.value.value).Some? ==>
        PartsOutcome(p, apiKey, service, parseParts) == Ok(parseParts(reply.value.value).value)
    ensures var reply := service(PartsRequest(p));
      reply.Thrown? || !Truthy(reply.value) || parseParts(reply.value.value).None? ==>
        PartsOutcome(p, apiKey, service, parseParts) == Ok([])
  {
    var r := PartsOutcome(p, apiKey, service, parseParts).value;
    if r != [] {
      var t := service(PartsRequest(p)).value.value;
      assert service(PartsRequest(p)) == Answered(Some(t)) && t != "" && parseParts(t) == Some(r);
    }
  }

  /** The parts prompt writes the category and the object name and leaves no placeholder. */
  lemma PartsPromptFilled(p: GenerationParams)
    ensures var t := FillFirst(FillFirst(PartsGenerationPrompt, CategorySlot, CategoryText(p.category)), ObjectNameSlot, p.objectName);
      Lit(CategoryText(p.category)) in t && Lit(p.objectName) in t
      && Count(t, CategorySlot) == 0 && Count(t, ObjectNameSlot) == 0
    ensures Includes(PartsPrompt(p), p.objectName) && Includes(PartsPrompt(p), CategoryText(p.category))
  {
    var c := CategoryText(p.category);
    PartsPromptPlaceholders();
    FillFirstIsFill(PartsGenerationPrompt, CategorySlot, c);
    var t1 := Fill(PartsGenerationPrompt, CategorySlot, c);
    FillWritesValue(PartsGenerationPrompt, CategorySlot, c);
    FillRemovesOnly(PartsGenerationPrompt, CategorySlot, c, ObjectNameSlot);
    FillFirstIsFill(t1, ObjectNameSlot, p.objectName);
    var t2 := Fill(t1, ObjectNameSlot, p.objectName);
    FillWritesValue(t1, ObjectNameSlot, p.objectName);
    FillKeepsLit(t1, ObjectNameSlot, p.objectName, c);
    FillRemovesOnly(t1, ObjectNameSlot, p.objectName, CategorySlot);
    FillRemovesOnly(t1, ObjectNameSlot, p.objectName, ObjectNameSlot);
    RenderIncludesLit(t2, p.objectName);
    RenderIncludesLit(t2, c);
  }

  /**
   * The parts prompt is what JavaScript's two first-occurrence string
   * replacements make of the constant's text, provided that text holds no
   * `{` outside its placeholders.
   */
  lemma PartsPromptIsReplace(p: GenerationParams)
    requires PlainLits(PartsGenerationPrompt)
    ensures ReplaceFirst(ReplaceFirst(Render(PartsGenerationPrompt), Token(CategorySlot), CategoryText(p.category)),
                         Token(ObjectNameSlot), p.objectName)
            == PartsPrompt(p)
  {
    var c := CategoryText(p.category);
    assert Lacks(c, '{');
    RenderReplaceFirst(PartsGenerationPrompt, CategorySlot, c);
    PartsPromptPlaceholders();
    FillFirstIsFill(PartsGenerationPrompt, CategorySlot, c);
    FillKeepsPlain(PartsGenerationPrompt, CategorySlot, c);
    RenderReplaceFirst(FillFirst(PartsGenerationPrompt, CategorySlot, c), ObjectNameSlot, p.objectName);
  }

  // ---------------------------------------------------------------------
  // analyzeImage

  function AnalysisText(hint: Option<string>): string
  {
    VisionAnalyzerPrompt + (if Truthy(hint) then "\nUser Hint: " + hint.value else "")
  }

  function AnalysisRequest(image: string, hint: Option<string>): TextRequest
  {
    TextRequest(TextModel, [TextPart(AnalysisText(hint)), InlineData("image/jpeg", StripDataUrlPrefix(image))], AnalysisSchema)
  }

  /**
   * `analyzeImage`: null (`None`) when the call fails, the reply has no
   * text, or the text does not parse. `parseAnalysis` stands for
   * `JSON.parse(text) as AnalysisResult`.
   */
  function AnalysisOutcome(image: string, hint: Option<string>, apiKey: Option<string>,
                           service: TextRequest -> Reply<Option<string>>,
                           parseAnalysis: string -> Option<AnalysisResult>): (r: Result<Option<AnalysisResult>, Failure>)
    ensures r.Err? <==> !Truthy(apiKey)
    ensures r.Err? ==> r.error == Raised(MissingKeyMessage)
  {
    match Client(apiKey)
    case Err(f) => Err(f)
    case Ok(_) =>
      match service(AnalysisRequest(image, hint))
      case Thrown(_) => Ok(None)
      case Answered(text) => if !Truthy(text) then Ok(None) else Ok(parseAnalysis(text.value))
  }

  /**
   * With a key, a non-empty reply gives its parse (null when it does not
   * parse), and a failed call or an empty reply gives null. A result comes
   * only from such a reply, to a request that carries the image data and,
   * when given, the hint.
   */
  lemma AnalysisOnlyFromReply(image: string, hint: Option<string>, apiKey: Option<string>,
                              service: TextRequest -> Reply<Option<string>>,
                              parseAnalysis: string -> Option<AnalysisResult>)
    ensures var r := AnalysisOutcome(image, hint, apiKey, service, parseAnalysis);
      r.Ok? && r.value.Some? ==>
        exists t :: service(AnalysisRequest(image, hint)) == Answered(Some(t)) && t != "" && parseAnalysis(t) == r.value
    ensures var reply := service(AnalysisRequest(image, hint));
      Truthy(apiKey) && reply.Answered? && Truthy(reply.value) ==>
        AnalysisOutcome(image, hint, apiKey, service, parseAnalysis) == Ok(parseAnalysis(reply.value.value))
    ensures var reply := service(AnalysisRequest(image, hint));
      Truthy(apiKey) && (reply.Thrown? || !Truthy(reply.value)) ==>
        AnalysisOutcome(image, hint, apiKey, service, parseAnalysis) == Ok(None)
    ensures AnalysisRequest(image, hint).parts[1] == InlineData("image/jpeg", StripDataUrlPrefix(image))
    ensures Truthy(hint) ==> AnalysisText(hint) == VisionAnalyzerPrompt + "\nUser Hint: " + hint.value
    ensures !Truthy(hint) ==> AnalysisText(hint) == VisionAnalyzerPrompt
  {
    var r := AnalysisOutcome(image, hint, apiKey, service, parseAnalysis);
    if r.Ok? && r.value.Some? {
      var t := service(AnalysisRequest(image, hint)).value.value;
      assert service(AnalysisRequest(image, hint)) == Answered(Some(t)) && t != "" && parseAnalysis(t) == r.value;
    }
  }

  // ---------------------------------------------------------------------
  // createCoachChat

  /** A chat session: its model, its system instruction, and the user messages sent to it so far. */
  datatype CoachSession = CoachSession(model: string, systemInstruction: string, sent: seq<string>)

  const SeedOpening := "Current context: User is creating a "
  const SeedViewOf := " view of "
  const SeedAspect := ". Aspect: "

  /** The context message the coach is sent first. */
  function CoachSeed(p: GenerationParams): string
  {
    SeedOpening + CategoryText(p.category) + SeedViewOf + p.objectName + SeedAspect + AspectRatioText(p.aspectRatio) + "."
  }

  /** `createCoachChat`: a flash chat with the coach instruction, already sent the context message. */
  function CreateCoachChat(p: GenerationParams, apiKey: Option<string>): (r: Result<CoachSession, Failure>)
    ensures r.Ok? <==> Truthy(apiKey)
    ensures r.Err? ==> r.error == Raised(MissingKeyMessage)
    ensures r.Ok? ==> r.value.model == TextModel && r.value.systemInstruction == CoachSystemPrompt
    ensures r.Ok? ==> |r.value.sent| == 1 && Includes(r.value.sent[0], p.objectName)
  {
    match Client(apiKey)
    case Err(f) => Err(f)
    case Ok(_) =>
      IncludesInfix(SeedOpening + CategoryText(p.category) + SeedViewOf, p.objectName,
                    SeedAspect + AspectRatioText(p.aspectRatio) + ".");
      assert SeedOpening + CategoryText(p.category) + SeedViewOf + p.objectName
             + (SeedAspect + AspectRatioText(p.aspectRatio) + ".") == CoachSeed(p);
      Ok(CoachSession(TextModel, CoachSystemPrompt, [CoachSeed(p)]))
  }

  /**
   * `chat.sendMessage`: an answered message joins the session's history and
   * the reply's text (empty when it has none) comes back; a failed call
   * leaves the history as it was.
   */
  function SendToCoach(s: CoachSession, message: string, reply: Reply<Option<string>>): (r: (CoachSession, Result<string, Failure>))
    ensures reply.Answered? ==> r.0.sent == s.sent + [message]
    ensures reply.Thrown? ==> r.0 == s
    ensures r.0.model == s.model && r.0.systemInstruction == s.systemInstruction
    ensures r.1.Err? <==> reply.Thrown?
    ensures reply.Answered? && reply.value.Some? ==> r.1 == Ok(reply.value.value)
    ensures reply.Answered? && reply.value.None? ==> r.1 == Ok("")
  {
    match reply
    case Thrown(f) => (s, Err(f))
    case Answered(t) => (s.(sent := s.sent + [message]), Ok(if t.Some? then t.value else ""))
  }
}
