/**
 * The closed enumerations and records of the exploded-view generator
 * (types.ts), as Dafny datatypes.
 *
 * TypeScript string unions become enumerations; each has a function giving
 * the exact string the source uses, and a parser that recognises exactly
 * those strings, so that "the union is exactly this set of strings" is a
 * round-trip lemma. Optional properties (`x?: T`) become `Option<T>`.
 */
module Types {

  datatype Option<+T> = None | Some(value: T)

  datatype Result<+T, +E> = Ok(value: T) | Err(error: E)

  /** JavaScript truthiness of an optional string: present and non-empty. */
  predicate Truthy(o: Option<string>)
  {
    o.Some? && o.value != ""
  }

  // ---------------------------------------------------------------------
  // String unions

  datatype AspectRatio = Ratio1x1 | Ratio3x4 | Ratio4x3 | Ratio9x16 | Ratio16x9

  function AspectRatioText(a: AspectRatio): string
  {
    match a
    case Ratio1x1 => "1:1"
    case Ratio3x4 => "3:4"
    case Ratio4x3 => "4:3"
    case Ratio9x16 => "9:16"
    case Ratio16x9 => "16:9"
  }

  function ParseAspectRatio(s: string): Option<AspectRatio>
  {
    if s == "1:1" then Some(Ratio1x1)
    else if s == "3:4" then Some(Ratio3x4)
    else if s == "4:3" then Some(Ratio4x3)
    else if s == "9:16" then Some(Ratio9x16)
    else if s == "16:9" then Some(Ratio16x9)
    else None
  }

  /** The union accepts exactly the five ratio strings, each naming one ratio. */
  lemma AspectRatioRoundTrip(a: AspectRatio, s: string)
    ensures ParseAspectRatio(AspectRatioText(a)) == Some(a)
    ensures ParseAspectRatio(s) == Some(a) ==> AspectRatioText(a) == s
    ensures ParseAspectRatio(s).Some? <==> s in {"1:1", "3:4", "4:3", "9:16", "16:9"}
  {
  }

  datatype DetailLevel = Standard | High | Ultra

  function DetailLevelText(d: DetailLevel): string
  {
    match d
    case Standard => "Standard"
    case High => "High"
    case Ultra => "Ultra"
  }

  function ParseDetailLevel(s: string): Option<DetailLevel>
  {
    if s == "Standard" then Some(Standard)
    else if s == "High" then Some(High)
    else if s == "Ultra" then Some(Ultra)
    else None
  }

  lemma DetailLevelRoundTrip(d: DetailLevel, s: string)
    ensures ParseDetailLevel(DetailLevelText(d)) == Some(d)
    ensures ParseDetailLevel(s) == Some(d) ==> DetailLevelText(d) == s
    ensures ParseDetailLevel(s).Some? <==> s in {"Standard", "High", "Ultra"}
  {
  }

  datatype Category = Technical | Organic | Electronics

  function CategoryText(c: Category): string
  {
    match c
    case Technical => "technical"
    case Organic => "organic"
    case Electronics => "electronics"
  }

  function ParseCategory(s: string): Option<Category>
  {
    if s == "technical" then Some(Technical)
    else if s == "organic" then Some(Organic)
    else if s == "electronics" then Some(Electronics)
    else None
  }

  lemma CategoryRoundTrip(c: Category, s: string)
    ensures ParseCategory(CategoryText(c)) == Some(c)
    ensures ParseCategory(s) == Some(c) ==> CategoryText(c) == s
    ensures ParseCategory(s).Some? <==> s in {"technical", "organic", "electronics"}
  {
  }

  datatype GenerationMode = TextMode | PhotoMode

  function ModeText(m: GenerationMode): string
  {
    match m
    case TextMode => "text"
    case PhotoMode => "photo"
  }

  function ParseMode(s: string): Option<GenerationMode>
  {
    if s == "text" then Some(TextMode)
    else if s == "photo" then Some(PhotoMode)
    else None
  }

  lemma ModeRoundTrip(m: GenerationMode, s: string)
    ensures ParseMode(ModeText(m)) == Some(m)
    ensures ParseMode(s) == Some(m) ==> ModeText(m) == s
    ensures ParseMode(s).Some? <==> s in {"text", "photo"}
  {
  }

  // ---------------------------------------------------------------------
  // Records

  /** The generator form: only `referenceImage` (a data URL) and `userHint` are optional. */
  datatype GenerationParams = GenerationParams(
    objectName: string,
    category: Category,
    aspectRatio: AspectRatio,
    detailLevel: DetailLevel,
    showLabels: bool,
    isKidFriendly: bool,
    mode: GenerationMode,
    referenceImage: Option<string>,
    userHint: Option<string>)

  /** `Partial<GenerationParams>`: every field may be absent. */
  datatype PartialParams = PartialParams(
    objectName: Option<string>,
    category: Option<Category>,
    aspectRatio: Option<AspectRatio>,
    detailLevel: Option<DetailLevel>,
    showLabels: Option<bool>,
    isKidFriendly: Option<bool>,
    mode: Option<GenerationMode>,
    referenceImage: Option<string>,
    userHint: Option<string>)

  datatype AnalysisCategory = TechnicalProduct | ElectronicsDevice | Organism | UnknownKind

  function AnalysisCategoryText(c: AnalysisCategory): string
  {
    match c
    case TechnicalProduct => "technical_product"
    case ElectronicsDevice => "electronics"
    case Organism => "organism"
    case UnknownKind => "unknown"
  }

  datatype Viewpoint = FrontThreeQuarter | RearThreeQuarter | Front | Rear | Side | Top | Mixed | UnknownView

  /** A bounding box in normalised coordinates. */
  datatype Region = Region(x: real, y: real, width: real, height: real)

  datatype AnalysisResult = AnalysisResult(
    category: AnalysisCategory,
    canonicalName: string,
    viewpoint: Viewpoint,
    mainRegion: Region,
    summary: string,
    confidence: real,
    sensitive: bool)

  /** One entry of the parts list; the id is an integer and every field is required. */
  datatype Part = Part(id: int, name: string, system: string, description: string)

  datatype GeneratedImage = GeneratedImage(
    id: string,
    url: string,
    params: GenerationParams,
    timestamp: int,
    promptUsed: string,
    parts: Option<seq<Part>>)

  datatype Preset = Preset(
    id: string,
    title: string,
    description: string,
    category: Category,
    params: PartialParams,
    thumbnail: Option<string>)

  datatype Role = User | Model

  function RoleText(r: Role): string
  {
    match r
    case User => "user"
    case Model => "model"
  }

  datatype ChatMessage = ChatMessage(role: Role, text: string, timestamp: int)
}
