/**
 * The prompt templates (constants.ts) and the placeholder machinery that
 * fills them in.
 *
 * A template string is kept as a sequence of pieces: literal text, and the
 * placeholder tokens `{OBJECT_NAME}`, `{ASPECT_RATIO}`, `{DETAIL_LEVEL}` and
 * `{CATEGORY}` at the places where the constant writes them. `Render` gives
 * back the string the constant holds. The literal pieces are the constant's
 * text between its tokens and hold no `{`; filling a placeholder is then
 * exactly JavaScript's replacement of its token (`RenderReplaceAll`,
 * `RenderReplaceFirst`).
 *
 * Each image template is a JSON document; here it is the record that
 * document parses to: the description, the style tags, the negative prompt
 * and the generation hints as (key, value) pairs, the camera's two entries
 * under the keys "camera.angle" and "camera.lens".
 */
module Templates {
  import opened Types
  import opened JsText

  datatype Placeholder = ObjectNameSlot | AspectRatioSlot | DetailLevelSlot | CategorySlot

  /** The token a placeholder is written as. */
  function Token(p: Placeholder): (t: string)
    ensures |t| >= 2 && t[0] == '{' && Lacks(t[1..], '{')
  {
    match p
    case ObjectNameSlot => "{OBJECT_NAME}"
    case AspectRatioSlot => "{ASPECT_RATIO}"
    case DetailLevelSlot => "{DETAIL_LEVEL}"
    case CategorySlot => "{CATEGORY}"
  }

  /** Distinct placeholders differ at the second character of their tokens. */
  lemma TokensDiffer(p: Placeholder, q: Placeholder)
    requires p != q
    ensures Token(p)[1] != Token(q)[1]
  {
  }

  datatype Piece = Lit(text: string) | Slot(placeholder: Placeholder)

  type Pattern = seq<Piece>

  function PieceText(x: Piece): string
  {
    match x
    case Lit(s) => s
    case Slot(p) => Token(p)
  }

  /** The string a pattern stands for, tokens written out. */
  function Render(t: Pattern): string
  {
    if t == [] then "" else PieceText(t[0]) + Render(t[1..])
  }

  /** How many times placeholder `p` is written in `t`. */
  function Count(t: Pattern, p: Placeholder): nat
  {
    if t == [] then 0 else (if t[0] == Slot(p) then 1 else 0) + Count(t[1..], p)
  }

  /** Every literal piece is free of `{`, so it cannot hide a token. */
  predicate PlainLits(t: Pattern)
  {
    forall i :: 0 <= i < |t| && t[i].Lit? ==> Lacks(t[i].text, '{')
  }

  /** Global replacement of placeholder `p` by the value `v`. */
  function Fill(t: Pattern, p: Placeholder, v: string): (r: Pattern)
    ensures |r| == |t|
    ensures forall i :: 0 <= i < |t| ==> r[i] == (if t[i] == Slot(p) then Lit(v) else t[i])
  {
    if t == [] then []
    else [if t[0] == Slot(p) then Lit(v) else t[0]] + Fill(t[1..], p, v)
  }

  /** Replacement of the first occurrence of placeholder `p` only. */
  function FillFirst(t: Pattern, p: Placeholder, v: string): Pattern
  {
    if t == [] then []
    else if t[0] == Slot(p) then [Lit(v)] + t[1..]
    else [t[0]] + FillFirst(t[1..], p, v)
  }

  /** After a global fill, `p` is gone and every other placeholder is still there, as often as before. */
  lemma {:induction false} FillRemovesOnly(t: Pattern, p: Placeholder, v: string, q: Placeholder)
    ensures Count(Fill(t, p, v), p) == 0
    ensures q != p ==> Count(Fill(t, p, v), q) == Count(t, q)
  {
    if t != [] {
      FillRemovesOnly(t[1..], p, v, q);
      assert Fill(t, p, v)[1..] == Fill(t[1..], p, v);
    }
  }

  /** Filling a placeholder the pattern does not hold changes nothing. */
  lemma {:induction false} FillAbsent(t: Pattern, p: Placeholder, v: string)
    requires Count(t, p) == 0
    ensures Fill(t, p, v) == t
  {
    if t != [] {
      FillAbsent(t[1..], p, v);
    }
  }

  /** Where `p` occurs at most once, replacing the first occurrence replaces them all. */
  lemma {:induction false} FillFirstIsFill(t: Pattern, p: Placeholder, v: string)
    requires Count(t, p) <= 1
    ensures FillFirst(t, p, v) == Fill(t, p, v)
  {
    if t != [] {
      if t[0] == Slot(p) {
        FillAbsent(t[1..], p, v);
      } else {
        FillFirstIsFill(t[1..], p, v);
      }
    }
  }

  /** A filled-in value is written in the rendered text. */
  lemma {:induction false} FillWritesValue(t: Pattern, p: Placeholder, v: string)
    requires Count(t, p) > 0
    ensures Lit(v) in Fill(t, p, v)
  {
    if t[0] != Slot(p) {
      FillWritesValue(t[1..], p, v);
      assert Fill(t, p, v)[1..] == Fill(t[1..], p, v);
    }
  }

  /** Filling other placeholders keeps every literal piece. */
  lemma FillKeepsLit(t: Pattern, p: Placeholder, w: string, s: string)
    requires Lit(s) in t
    ensures Lit(s) in Fill(t, p, w)
  {
    var i :| 0 <= i < |t| && t[i] == Lit(s);
    assert Fill(t, p, w)[i] == Lit(s);
  }

  /** The text of a literal piece is part of the rendered string. */
  lemma {:induction false} RenderIncludesLit(t: Pattern, s: string)
    requires Lit(s) in t
    ensures Includes(Render(t), s)
  {
    if t[0] == Lit(s) {
      IncludesInfix("", s, Render(t[1..]));
      assert "" + s + Render(t[1..]) == Render(t);
    } else {
      assert Lit(s) in t[1..];
      RenderIncludesLit(t[1..], s);
      IncludesExtend(PieceText(t[0]), Render(t[1..]), "", s);
      assert PieceText(t[0]) + Render(t[1..]) + "" == Render(t);
    }
  }

  lemma FillKeepsPlain(t: Pattern, p: Placeholder, v: string)
    requires PlainLits(t) && Lacks(v, '{')
    ensures PlainLits(Fill(t, p, v))
  {
  }

  /**
   * Replacing every token of `p` in the rendered string (JavaScript
   * `replace(/{TOKEN}/g, v)`) renders the filled pattern, as long as neither
   * the literal text nor the value holds a `{`.
   */
  lemma {:induction false} RenderReplaceAll(t: Pattern, p: Placeholder, v: string)
    requires PlainLits(t) && Lacks(v, '{')
    ensures ReplaceAll(Render(t), Token(p), v) == Render(Fill(t, p, v))
  {
    if t != [] {
      PlainLitsTail(t);
      RenderReplaceAll(t[1..], p, v);
      assert Fill(t, p, v)[1..] == Fill(t[1..], p, v);
      match t[0]
      case Lit(s) =>
        ReplaceAllSkip(s, Render(t[1..]), Token(p), v);
      case Slot(q) =>
        if q == p {
          ReplaceAllHit(Render(t[1..]), Token(p), v);
        } else {
          TokensDiffer(q, p);
          ReplaceAllMismatch(Token(q), Render(t[1..]), Token(p), v);
        }
    }
  }

  lemma PlainLitsTail(t: Pattern)
    requires t != [] && PlainLits(t)
    ensures PlainLits(t[1..])
  {
    forall i | 0 <= i < |t[1..]| && t[1..][i].Lit? ensures Lacks(t[1..][i].text, '{') {
      assert t[1..][i] == t[i + 1];
    }
  }

  lemma RenderCons(x: Piece, t: Pattern)
    ensures Render([x] + t) == PieceText(x) + Render(t)
  {
    assert ([x] + t)[1..] == t;
  }

  /** The same for replacing only the first token (JavaScript `replace('{TOKEN}', v)`). */
  lemma {:induction false} RenderReplaceFirst(t: Pattern, p: Placeholder, v: string)
    requires PlainLits(t)
    ensures ReplaceFirst(Render(t), Token(p), v) == Render(FillFirst(t, p, v))
  {
    if t != [] {
      PlainLitsTail(t);
      match t[0]
      case Lit(s) =>
        RenderReplaceFirst(t[1..], p, v);
        ReplaceFirstSkip(s, Render(t[1..]), Token(p), v);
      case Slot(q) =>
        if q == p {
          ReplaceFirstHit(Render(t[1..]), Token(p), v);
          RenderCons(Lit(v), t[1..]);
        } else {
          RenderReplaceFirst(t[1..], p, v);
          TokensDiffer(q, p);
          ReplaceFirstMismatch(Token(q), Render(t[1..]), Token(p), v);
        }
    }
  }

  // ---------------------------------------------------------------------
  // Image templates

  datatype Camera = Camera(angle: string, lens: string)

  /** The template's `generationHints`; only the photo templates have `referenceImageMode`. */
  datatype Hints = Hints(
    aspectRatio: Pattern,
    detailLevel: Pattern,
    stylization: string,
    camera: Camera,
    lighting: string,
    background: string,
    referenceImageMode: Option<Pattern>)

  datatype ImageTemplate = ImageTemplate(
    description: Pattern,
    styleTags: seq<string>,
    negativePrompt: string,
    hints: Hints)

  /** How many times placeholder `p` is written in the hints. */
  function CountHints(h: Hints, p: Placeholder): nat
  {
    Count(h.aspectRatio, p) + Count(h.detailLevel, p)
    + (match h.referenceImageMode case Some(m) => Count(m, p) case None => 0)
  }

  function FillHints(h: Hints, p: Placeholder, v: string): (r: Hints)
    ensures CountHints(r, p) == 0
    ensures forall q :: q != p ==> CountHints(r, q) == CountHints(h, q)
  {
    forall q ensures Count(Fill(h.aspectRatio, p, v), p) == 0 && Count(Fill(h.detailLevel, p, v), p) == 0
      && (q != p ==>
            Count(Fill(h.aspectRatio, p, v), q) == Count(h.aspectRatio, q)
            && Count(Fill(h.detailLevel, p, v), q) == Count(h.detailLevel, q))
      && (h.referenceImageMode.Some? ==>
            Count(Fill(h.referenceImageMode.value, p, v), p) == 0
            && (q != p ==> Count(Fill(h.referenceImageMode.value, p, v), q) == Count(h.referenceImageMode.value, q)))
    {
      FillRemovesOnly(h.aspectRatio, p, v, q);
      FillRemovesOnly(h.detailLevel, p, v, q);
      if h.referenceImageMode.Some? {
        FillRemovesOnly(h.referenceImageMode.value, p, v, q);
      }
    }
    h.(aspectRatio := Fill(h.aspectRatio, p, v),
       detailLevel := Fill(h.detailLevel, p, v),
       referenceImageMode := match h.referenceImageMode
                             case Some(m) => Some(Fill(m, p, v))
                             case None => None)
  }

  /** Replacement of `p` throughout the template text: description and hints (nothing else holds a token). */
  function FillTemplate(t: ImageTemplate, p: Placeholder, v: string): (r: ImageTemplate)
    ensures r.styleTags == t.styleTags && r.negativePrompt == t.negativePrompt
    ensures Count(r.description, p) == 0 && CountHints(r.hints, p) == 0
    ensures forall q :: q != p ==> Count(r.description, q) == Count(t.description, q)
    ensures forall q :: q != p ==> CountHints(r.hints, q) == CountHints(t.hints, q)
  {
    forall q ensures Count(Fill(t.description, p, v), p) == 0
      && (q != p ==> Count(Fill(t.description, p, v), q) == Count(t.description, q))
    {
      FillRemovesOnly(t.description, p, v, q);
    }
    t.(description := Fill(t.description, p, v), hints := FillHints(t.hints, p, v))
  }

  /** TECHNICAL_TEMPLATE, ORGANIC_TEMPLATE, TECHNICAL_PHOTO_TEMPLATE and ORGANIC_PHOTO_TEMPLATE. */
  const TechnicalTemplate: ImageTemplate := ImageTemplate(
    description := [Lit("Ultra-detailed exploded technical infographic of "),
       Slot(ObjectNameSlot),
       Lit(", shown in a 3/4 front isometric view. The object is partially transparent and opened, with its key internal and external components separated and floating around the main body in a clean exploded-view layout. Show all major parts typical for this object: outer shell/panels, structural frame, primary electronics/boards, power system/battery or PSU, ports/connectors, display or interface elements if present, input controls/buttons, mechanical modules (motors/gears/fans/hinges) if applicable, speakers/microphones if applicable, cables/flex ribbons, screws/brackets, and EMI/thermal shielding. Use thin white callout leader lines and numbered labels in a minimalist sans-serif font. Background: smooth dark gray studio backdrop. Lighting: soft, even, high-end product render lighting with subtle reflections. Style: photoreal 3D CAD render, industrial design presentation, high contrast, razor-sharp focus, 8K UHD, 100 megapixel, hyper-detailed textures, clean composition, no clutter.")],
    styleTags := ["Exploded View",
                  "Technical Infographic",
                  "Photoreal 3D CAD Render",
                  "Industrial Design Presentation",
                  "Minimalist Labels",
                  "Dark Studio Background"],
    negativePrompt := "no people, no messy layout, no extra components, no brand logos, no text blur, no cartoon, no low-poly, no watermark, no distorted perspective, no heavy noise, low resolution, blurry",
    hints := Hints(
      aspectRatio := [Slot(AspectRatioSlot)],
      detailLevel := [Slot(DetailLevelSlot)],
      stylization := "low-medium",
      camera := Camera("3/4 front isometric",
                      "product render perspective"),
      lighting := "soft even studio lighting, subtle reflections",
      background := "smooth dark gray seamless backdrop",
      referenceImageMode := None))

  const OrganicTemplate: ImageTemplate := ImageTemplate(
    description := [Lit("Ultra-detailed anatomical exploded view and layered biological infographic for "),
       Slot(ObjectNameSlot),
       Lit(". The organism is shown from a 3/4 front isometric angle as an educational scientific visual. The outer body is partially transparent and opened; anatomical layers and main systems are separated in a clean exploded layout, hovering around the main body. Clearly show these layers and systems: skin and outer tissue, skeletal system (skull, spine, ribcage, limb bones), muscular system (major muscle groups), circulatory system (heart and main blood vessels), respiratory system (lungs or species-appropriate breathing organs), digestive system (stomach, intestines, liver and related organs), nervous system (brain and main nerve pathways), reproductive system (species-appropriate), plus any special anatomical features of "),
       Slot(ObjectNameSlot),
       Lit(" such as wings, fins, horns, tail, pouches, etc. Use thin white callout leader lines and numbered labels in a minimalist sans-serif font. Background: smooth dark gray or deep blue scientific studio backdrop. Lighting: soft, even, with clinical clarity suitable for medical illustration. Style: photoreal 3D medical/anatomical render combined with a scientific textbook infographic, high contrast, razor-sharp focus, 8K UHD, 100 megapixel, hyper-detailed textures, clean composition, non-cluttered, education-focused.")],
    styleTags := ["Anatomical Exploded View",
                  "Biological/Medical Infographic",
                  "Layered Anatomy",
                  "Photoreal 3D Anatomy Render",
                  "Educational Scientific Style",
                  "Minimalist Labels",
                  "Dark Studio Background"],
    negativePrompt := "no blood, no gore, no horror, no surgery scene, no overly graphic content, no realistic human portrait face, no messy layout, no extra organs, no blurry text, no cartoon style, no low-poly, no watermark, no distorted perspective, no heavy noise, low resolution, blurry",
    hints := Hints(
      aspectRatio := [Slot(AspectRatioSlot)],
      detailLevel := [Slot(DetailLevelSlot)],
      stylization := "low-medium",
      camera := Camera("3/4 front isometric",
                      "scientific anatomy render perspective"),
      lighting := "soft, even, with medical-illustration clarity",
      background := "smooth dark gray or deep blue seamless studio backdrop",
      referenceImageMode := None))

  const TechnicalPhotoTemplate: ImageTemplate := ImageTemplate(
    description := [Lit("Ultra-detailed exploded technical infographic of "),
       Slot(ObjectNameSlot),
       Lit(", based on the uploaded reference photo. Match the photo's overall perspective, pose, and proportions as closely as possible, but convert it into a clean 3/4 isometric-like exploded view. The object should be partially transparent and opened, with its key internal and external components separated and floating around the main body in a clean exploded-view layout. Show all major parts typical for this object: outer shell/panels, structural frame, primary electronics/boards, power system/battery or PSU, ports/connectors, display or interface elements if present, input controls/buttons, mechanical modules (motors/gears/fans/hinges) if applicable, speakers/microphones if applicable, cables/flex ribbons, screws/brackets, and EMI/thermal shielding. Use thin white callout leader lines and numbered labels in a minimalist sans-serif font. Background: smooth dark gray studio backdrop (ignore any cluttered or real-world background in the photo). Lighting: soft, even, high-end product render lighting with subtle reflections. Style: photoreal 3D CAD render, industrial design presentation, high contrast, razor-sharp, 8K, clean composition, no clutter.")],
    styleTags := ["Exploded View",
                  "Technical Infographic",
                  "Photoreal 3D CAD Render",
                  "Industrial Design Presentation",
                  "Minimalist Labels",
                  "Dark Studio Background"],
    negativePrompt := "no people, no messy layout, no extra components, no brand logos, no text blur, no cartoon, no low-poly, no watermark, no distorted perspective, no heavy noise, ignore real-world background, ignore reflections or environment from the original photo",
    hints := Hints(
      aspectRatio := [Slot(AspectRatioSlot)],
      detailLevel := [Slot(DetailLevelSlot)],
      stylization := "low-medium",
      camera := Camera("match the reference photo as closely as possible, biased towards a 3/4 front isometric feel",
                      "product render perspective"),
      lighting := "soft even studio lighting, subtle reflections, not the lighting from the original photo",
      background := "smooth dark gray seamless backdrop",
      referenceImageMode := Some([Lit("use the uploaded photo of "),
        Slot(ObjectNameSlot),
        Lit(" as structural and compositional guidance only")])))

  const OrganicPhotoTemplate: ImageTemplate := ImageTemplate(
    description := [Lit("Ultra-detailed anatomical exploded view and layered biological infographic for "),
       Slot(ObjectNameSlot),
       Lit(", based on the uploaded reference photo. Match the photo's pose, proportions and overall angle as closely as possible, but convert it into a clean educational exploded view. The outer body should resemble the subject in the photo, but be partially transparent and opened; anatomical layers and main systems are separated in a clean exploded layout, hovering around the main body. Clearly show these layers and systems: skin and outer tissue, skeletal system (skull, spine, ribcage, limb bones), muscular system (major muscle groups), circulatory system (heart and main blood vessels), respiratory system (lungs or species-appropriate breathing organs), digestive system (stomach, intestines, liver and related organs), nervous system (brain and main nerve pathways), reproductive system (species-appropriate), plus any special anatomical features of "),
       Slot(ObjectNameSlot),
       Lit(" such as wings, fins, horns, tail, pouches, etc. Use thin white callout leader lines and numbered labels in a minimalist sans-serif font. Background: smooth dark gray or deep blue scientific studio backdrop (ignore the original background). Lighting: soft, even, with clinical clarity suitable for medical illustration. Style: photoreal 3D medical/anatomical render combined with a scientific textbook infographic, high contrast, razor-sharp, 8K, clean composition, non-cluttered, education-focused and kid-friendly.")],
    styleTags := ["Anatomical Exploded View",
                  "Biological/Medical Infographic",
                  "Layered Anatomy",
                  "Photoreal 3D Anatomy Render",
                  "Educational Scientific Style",
                  "Minimalist Labels",
                  "Dark Studio Background"],
    negativePrompt := "no blood, no gore, no horror, no surgery scene, no overly graphic or disturbing content, no realistic human portrait face, no messy layout, no extra organs, no blurry text, no cartoon style, no low-poly, no watermark, no distorted perspective, no heavy noise, ignore the original photo background and lighting",
    hints := Hints(
      aspectRatio := [Slot(AspectRatioSlot)],
      detailLevel := [Slot(DetailLevelSlot)],
      stylization := "low-medium",
      camera := Camera("match the reference photo's perspective as closely as possible, but in a clean, slightly isometric educational style",
                      "scientific anatomy render perspective"),
      lighting := "soft, even, with medical-illustration clarity, not the lighting from the original photo",
      background := "smooth dark gray or deep blue seamless studio backdrop",
      referenceImageMode := Some([Lit("use the uploaded photo of "),
        Slot(ObjectNameSlot),
        Lit(" as pose and proportion guidance only")])))

  predicate IsImageTemplate(t: ImageTemplate)
  {
    t == TechnicalTemplate || t == OrganicTemplate || t == TechnicalPhotoTemplate || t == OrganicPhotoTemplate
  }

  /** PARTS_GENERATION_PROMPT. */
  const PartsGenerationPrompt: Pattern :=
    [Lit("\nYou are an expert technical writer and anatomy educator.\nGiven a category ("),
    Slot(CategorySlot),
    Lit(") and an object name ("),
    Slot(ObjectNameSlot),
    Lit("), propose a list of 10-15 key parts that would appear in an exploded view.\nFor each part, provide:\n- id (integer starting from 1)\n- name (short technical name)\n- system (e.g. skeletal, engine, electronics)\n- description (1 short sentence explaining function)\n\nConstraints:\n- Neutral, educational tone.\n- No gore for organisms.\n- Return ONLY JSON array.\n")]

  /** COACH_SYSTEM_PROMPT: the coach session's system instruction. */
  const CoachSystemPrompt: string :=
    "\nYou are Inside Coach, an AI assistant for the InsideView AI app.\nRole: Help users create the best exploded technical and anatomical visuals.\nContext:\n- Categories: Technical, Electronics, Organisms.\n- Controls: Object Name, Aspect Ratio, Detail Level.\nGoals:\n1. Suggest improvements to wording or settings.\n2. Explain parts if asked.\n3. Propose creative ideas (e.g. \"For a poster, use 2:3 aspect ratio\").\nTone: Professional, concise, helpful. No markdown.\n"

  /** VISION_ANALYZER_PROMPT: the text sent with a photo to be analysed. */
  const VisionAnalyzerPrompt: string :=
    "\nYou are the **Vision Analyzer** module of InsideView AI.\n\nInput:\n- One photo uploaded by the user.\n- Optional short user text describing the image.\n\nYour task:\n1. Decide what the main subject of the photo is.\n2. Classify the subject into one of these categories:\n   - \"technical_product\"  (cars, machines, engines, tools, vehicles...)\n   - \"electronics\"        (phones, laptops, PCs, consoles, gadgets...)\n   - \"organism\"           (humans, animals, biological creatures, body parts...)\n   - \"unknown\"            (if none fits or the image is too ambiguous).\n3. Infer a **canonical name** for the main object or species, suitable to use in a prompt:\n   - For cars: brand + model class when possible.\n   - For electronics: type and form factor.\n   - For organisms: species or description.\n4. Estimate the viewpoint / camera angle of the main subject:\n   - \"3/4 front\", \"3/4 rear\", \"front\", \"rear\", \"side\", \"top\", \"mixed\", \"unknown\"\n5. Suggest a **mainRegion** in normalized coordinates (0-1) for the bounding box around the primary subject.\n6. Provide a short **summary** (1-2 sentences) describing what the image shows.\n7. Provide a numeric **confidence** field between 0 and 1.\n8. Set 'sensitive' to true if medical/gore/graphic, else false.\n\nOutput STRICTLY as JSON with this structure:\n{\n  \"category\": \"technical_product\" | \"electronics\" | \"organism\" | \"unknown\",\n  \"canonicalName\": \"string\",\n  \"viewpoint\": \"string\",\n  \"mainRegion\": { \"x\": 0.0, \"y\": 0.0, \"width\": 1.0, \"height\": 1.0 },\n  \"summary\": \"string\",\n  \"confidence\": 0.0,\n  \"sensitive\": boolean\n}\n"

  datatype CategoryOption = CategoryOption(id: Category, labelText: string)

  /** CATEGORIES: the categories offered by the generator form. */
  const Categories: seq<CategoryOption> := [
    CategoryOption(Technical, "Technical Products"),
    CategoryOption(Electronics, "Electronics & Gadgets"),
    CategoryOption(Organic, "Living Organisms")]

  const NoParams: PartialParams := PartialParams(None, None, None, None, None, None, None, None, None)

  /** PRESETS: the quick-start presets. */
  const Presets: seq<Preset> := [
    Preset("p1", "Sports Car", "Complete drivetrain and chassis breakdown", Technical,
      NoParams.(objectName := Some("Modern Sports Car"), aspectRatio := Some(Ratio16x9),
                detailLevel := Some(Ultra), mode := Some(TextMode)),
      Some("https://picsum.photos/seed/car/400/300")),
    Preset("p2", "Smartphone", "Flagship internals stacked layout", Electronics,
      NoParams.(objectName := Some("Flagship Smartphone"), aspectRatio := Some(Ratio4x3),
                detailLevel := Some(High), mode := Some(TextMode)),
      Some("https://picsum.photos/seed/phone/400/300")),
    Preset("p3", "Human Heart", "Clinical anatomical view", Organic,
      NoParams.(objectName := Some("Human Heart"), aspectRatio := Some(Ratio1x1),
                detailLevel := Some(Ultra), mode := Some(TextMode)),
      Some("https://picsum.photos/seed/heart/400/300")),
    Preset("p4", "Mechanical Watch", "Complex gear assembly view", Technical,
      NoParams.(objectName := Some("Mechanical Watch Movement"), aspectRatio := Some(Ratio1x1),
                detailLevel := Some(Ultra), mode := Some(TextMode)),
      Some("https://picsum.photos/seed/watch/400/300"))]

  // ---------------------------------------------------------------------
  // Facts about the constants

  /** The count of a placeholder is its multiplicity among the pieces. */
  lemma {:induction false} CountIsMultiplicity(t: Pattern, p: Placeholder)
    ensures Count(t, p) == multiset(t)[Slot(p)]
  {
    if t != [] {
      CountIsMultiplicity(t[1..], p);
      assert t == [t[0]] + t[1..];
    }
  }

  /** The four counts of a pattern, taken through its multiset of pieces. */
  lemma DescriptionSlots(t: Pattern)
    ensures Count(t, ObjectNameSlot) == multiset(t)[Slot(ObjectNameSlot)]
    ensures Count(t, AspectRatioSlot) == multiset(t)[Slot(AspectRatioSlot)]
    ensures Count(t, DetailLevelSlot) == multiset(t)[Slot(DetailLevelSlot)]
    ensures Count(t, CategorySlot) == multiset(t)[Slot(CategorySlot)]
  {
    CountIsMultiplicity(t, ObjectNameSlot);
    CountIsMultiplicity(t, AspectRatioSlot);
    CountIsMultiplicity(t, DetailLevelSlot);
    CountIsMultiplicity(t, CategorySlot);
  }

  lemma HintSlots(h: Hints)
    ensures forall p ::
              CountHints(h, p) == multiset(h.aspectRatio)[Slot(p)] + multiset(h.detailLevel)[Slot(p)]
                + (if h.referenceImageMode.Some? then multiset(h.referenceImageMode.value)[Slot(p)] else 0)
  {
    forall p ensures CountHints(h, p) == multiset(h.aspectRatio)[Slot(p)] + multiset(h.detailLevel)[Slot(p)]
      + (if h.referenceImageMode.Some? then multiset(h.referenceImageMode.value)[Slot(p)] else 0)
    {
      CountIsMultiplicity(h.aspectRatio, p);
      CountIsMultiplicity(h.detailLevel, p);
      if h.referenceImageMode.Some? {
        CountIsMultiplicity(h.referenceImageMode.value, p);
      }
    }
  }

  lemma TechnicalSlots()
    ensures Count(TechnicalTemplate.description, ObjectNameSlot) == 1
    ensures Count(TechnicalTemplate.description, AspectRatioSlot) == 0 && Count(TechnicalTemplate.description, DetailLevelSlot) == 0
    ensures Count(TechnicalTemplate.description, CategorySlot) == 0
    ensures CountHints(TechnicalTemplate.hints, ObjectNameSlot) == 0
    ensures CountHints(TechnicalTemplate.hints, AspectRatioSlot) == 1 && CountHints(TechnicalTemplate.hints, DetailLevelSlot) == 1
    ensures CountHints(TechnicalTemplate.hints, CategorySlot) == 0
  {
    TechnicalDescriptionSlots();
    HintSlots(TechnicalTemplate.hints);
  }

  lemma TechnicalDescriptionSlots()
    ensures Count(TechnicalTemplate.description, ObjectNameSlot) == 1
    ensures Count(TechnicalTemplate.description, AspectRatioSlot) == 0 && Count(TechnicalTemplate.description, DetailLevelSlot) == 0
    ensures Count(TechnicalTemplate.description, CategorySlot) == 0
  {
    DescriptionSlots(TechnicalTemplate.description);
  }

  lemma OrganicSlots()
    ensures Count(OrganicTemplate.description, ObjectNameSlot) == 2
    ensures Count(OrganicTemplate.description, AspectRatioSlot) == 0 && Count(OrganicTemplate.description, DetailLevelSlot) == 0
    ensures Count(OrganicTemplate.description, CategorySlot) == 0
    ensures CountHints(OrganicTemplate.hints, ObjectNameSlot) == 0
    ensures CountHints(OrganicTemplate.hints, AspectRatioSlot) == 1 && CountHints(OrganicTemplate.hints, DetailLevelSlot) == 1
    ensures CountHints(OrganicTemplate.hints, CategorySlot) == 0
  {
    OrganicDescriptionSlots();
    HintSlots(OrganicTemplate.hints);
  }

  lemma OrganicDescriptionSlots()
    ensures Count(OrganicTemplate.description, ObjectNameSlot) == 2
    ensures Count(OrganicTemplate.description, AspectRatioSlot) == 0 && Count(OrganicTemplate.description, DetailLevelSlot) == 0
    ensures Count(OrganicTemplate.description, CategorySlot) == 0
  {
    DescriptionSlots(OrganicTemplate.description);
  }

  lemma TechnicalPhotoSlots()
    ensures Count(TechnicalPhotoTemplate.description, ObjectNameSlot) == 1
    ensures Count(TechnicalPhotoTemplate.description, AspectRatioSlot) == 0 && Count(TechnicalPhotoTemplate.description, DetailLevelSlot) == 0
    ensures Count(TechnicalPhotoTemplate.description, CategorySlot) == 0
    ensures CountHints(TechnicalPhotoTemplate.hints, ObjectNameSlot) == 1
    ensures CountHints(TechnicalPhotoTemplate.hints, AspectRatioSlot) == 1 && CountHints(TechnicalPhotoTemplate.hints, DetailLevelSlot) == 1
    ensures CountHints(TechnicalPhotoTemplate.hints, CategorySlot) == 0
  {
    TechnicalPhotoDescriptionSlots();
    HintSlots(TechnicalPhotoTemplate.hints);
  }

  lemma TechnicalPhotoDescriptionSlots()
    ensures Count(TechnicalPhotoTemplate.description, ObjectNameSlot) == 1
    ensures Count(TechnicalPhotoTemplate.description, AspectRatioSlot) == 0 && Count(TechnicalPhotoTemplate.description, DetailLevelSlot) == 0
    ensures Count(TechnicalPhotoTemplate.description, CategorySlot) == 0
  {
    DescriptionSlots(TechnicalPhotoTemplate.description);
  }

  lemma OrganicPhotoSlots()
    ensures Count(OrganicPhotoTemplate.description, ObjectNameSlot) == 2
    ensures Count(OrganicPhotoTemplate.description, AspectRatioSlot) == 0 && Count(OrganicPhotoTemplate.description, DetailLevelSlot) == 0
    ensures Count(OrganicPhotoTemplate.description, CategorySlot) == 0
    ensures CountHints(OrganicPhotoTemplate.hints, ObjectNameSlot) == 1
    ensures CountHints(OrganicPhotoTemplate.hints, AspectRatioSlot) == 1 && CountHints(OrganicPhotoTemplate.hints, DetailLevelSlot) == 1
    ensures CountHints(OrganicPhotoTemplate.hints, CategorySlot) == 0
  {
    OrganicPhotoDescriptionSlots();
    HintSlots(OrganicPhotoTemplate.hints);
  }

  lemma OrganicPhotoDescriptionSlots()
    ensures Count(OrganicPhotoTemplate.description, ObjectNameSlot) == 2
    ensures Count(OrganicPhotoTemplate.description, AspectRatioSlot) == 0 && Count(OrganicPhotoTemplate.description, DetailLevelSlot) == 0
    ensures Count(OrganicPhotoTemplate.description, CategorySlot) == 0
  {
    DescriptionSlots(OrganicPhotoTemplate.description);
  }

  /** `{OBJECT_NAME}` is written once in the technical descriptions, twice in the organic ones, and once in each photo template's reference-image hint. */
  lemma ObjectNameOccurrences()
    ensures Count(TechnicalTemplate.description, ObjectNameSlot) == 1
    ensures Count(TechnicalPhotoTemplate.description, ObjectNameSlot) == 1
    ensures Count(OrganicTemplate.description, ObjectNameSlot) == 2
    ensures Count(OrganicPhotoTemplate.description, ObjectNameSlot) == 2
    ensures CountHints(TechnicalTemplate.hints, ObjectNameSlot) == 0
    ensures CountHints(OrganicTemplate.hints, ObjectNameSlot) == 0
    ensures CountHints(TechnicalPhotoTemplate.hints, ObjectNameSlot) == 1
    ensures CountHints(OrganicPhotoTemplate.hints, ObjectNameSlot) == 1
  {
    TechnicalSlots();
    OrganicSlots();
    TechnicalPhotoSlots();
    OrganicPhotoSlots();
  }

  /** `{ASPECT_RATIO}` and `{DETAIL_LEVEL}` are written once each, in the hints and never in the description; no image template uses `{CATEGORY}`. */
  lemma RatioAndDetailOnlyInHints(t: ImageTemplate)
    requires IsImageTemplate(t)
    ensures Count(t.description, AspectRatioSlot) == 0 && Count(t.description, DetailLevelSlot) == 0
    ensures CountHints(t.hints, AspectRatioSlot) == 1 && CountHints(t.hints, DetailLevelSlot) == 1
    ensures Count(t.description, CategorySlot) == 0 && CountHints(t.hints, CategorySlot) == 0
  {
    if t == TechnicalTemplate {
      TechnicalSlots();
    } else if t == OrganicTemplate {
      OrganicSlots();
    } else if t == TechnicalPhotoTemplate {
      TechnicalPhotoSlots();
    } else {
      OrganicPhotoSlots();
    }
  }

  /** The four image templates are pairwise different documents. */
  lemma TemplatesDistinct()
    ensures TechnicalTemplate != OrganicTemplate && TechnicalTemplate != TechnicalPhotoTemplate
    ensures TechnicalTemplate != OrganicPhotoTemplate && OrganicTemplate != TechnicalPhotoTemplate
    ensures OrganicTemplate != OrganicPhotoTemplate && TechnicalPhotoTemplate != OrganicPhotoTemplate
  {
    assert |TechnicalTemplate.styleTags| == 6 && |OrganicTemplate.styleTags| == 7;
    assert |TechnicalPhotoTemplate.styleTags| == 6 && |OrganicPhotoTemplate.styleTags| == 7;
    assert TechnicalTemplate.hints.referenceImageMode.None? && OrganicTemplate.hints.referenceImageMode.None?;
    assert TechnicalPhotoTemplate.hints.referenceImageMode.Some?;
    assert OrganicPhotoTemplate.hints.referenceImageMode.Some?;
  }

  /** PARTS_GENERATION_PROMPT writes `{CATEGORY}` and `{OBJECT_NAME}` once each and no other placeholder. */
  lemma PartsPromptPlaceholders()
    ensures Count(PartsGenerationPrompt, CategorySlot) == 1
    ensures Count(PartsGenerationPrompt, ObjectNameSlot) == 1
    ensures Count(PartsGenerationPrompt, AspectRatioSlot) == 0
    ensures Count(PartsGenerationPrompt, DetailLevelSlot) == 0
  {
  }

  /** CATEGORIES offers every category exactly once. */
  lemma CategoriesEachOnce(c: Category)
    ensures |Categories| == 3
    ensures exists i :: 0 <= i < |Categories| && Categories[i].id == c
    ensures forall i, j :: 0 <= i < j < |Categories| ==> Categories[i].id != Categories[j].id
  {
    match c
    case Technical => assert Categories[0].id == c;
    case Electronics => assert Categories[1].id == c;
    case Organic => assert Categories[2].id == c;
  }

  /** Every preset switches to text mode, names an object, and leaves the category out of its parameters. */
  lemma PresetsShape(i: nat)
    requires i < |Presets|
    ensures Presets[i].params.mode == Some(TextMode)
    ensures Presets[i].params.category.None?
    ensures Presets[i].params.objectName.Some?
    ensures Presets[i].params.referenceImage.None? && Presets[i].params.userHint.None?
  {
  }
}
