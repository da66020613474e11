/**
 * The prompt resolver: `buildPrompt` of services/geminiService.ts.
 *
 * It picks one of the four image templates by (organic?, photo?), replaces
 * the three placeholders everywhere, parses the result as JSON and takes
 * `promptDetails.description` as the base prompt, then appends the
 * conditional clauses in a fixed order. When parsing fails the prompt is
 * the fallback "Exploded view of <object>".
 *
 * `JSON.parse` is an oracle: the parameter `parses` says whether the
 * substituted template (the record standing for the substituted JSON
 * text) parses. When it does, its description is the substituted
 * description.
 */
module Prompt {
  import opened Types
  import opened JsText
  import opened Templates

  /** The template family: organic or not, photo or not. */
  function SelectTemplate(c: Category, m: GenerationMode): ImageTemplate
  {
    if c == Organic then
      (if m == PhotoMode then OrganicPhotoTemplate else OrganicTemplate)
    else
      (if m == PhotoMode then TechnicalPhotoTemplate else TechnicalTemplate)
  }

  /** Two requests share a template exactly when they agree on "organic" and on the mode; electronics and technical share theirs. */
  lemma SelectTemplateFamily(c1: Category, m1: GenerationMode, c2: Category, m2: GenerationMode)
    ensures SelectTemplate(c1, m1) == SelectTemplate(c2, m2) <==> ((c1 == Organic) == (c2 == Organic) && m1 == m2)
  {
    TemplatesDistinct();
  }

  /**
   * What the resolver needs of a template: the object name is written in
   * the description, the aspect ratio and detail level are not, and
   * `{CATEGORY}` is written nowhere.
   */
  predicate Resolvable(t: ImageTemplate)
  {
    Count(t.description, ObjectNameSlot) >= 1
    && Count(t.description, AspectRatioSlot) == 0 && Count(t.description, DetailLevelSlot) == 0
    && Count(t.description, CategorySlot) == 0 && CountHints(t.hints, CategorySlot) == 0
  }

  /** The selected template is one of the four, it is resolvable, and it carries a reference-image hint exactly in photo mode. */
  lemma SelectTemplateShape(c: Category, m: GenerationMode)
    ensures IsImageTemplate(SelectTemplate(c, m))
    ensures Resolvable(SelectTemplate(c, m))
    ensures SelectTemplate(c, m).hints.referenceImageMode.Some? <==> m == PhotoMode
  {
    TemplatesDistinct();
    ObjectNameOccurrences();
    RatioAndDetailOnlyInHints(SelectTemplate(c, m));
  }

  /** The three global replacements, in the source's order: object name, aspect ratio, detail level. */
  function SubstituteIn(t: ImageTemplate, p: GenerationParams): ImageTemplate
  {
    var t1 := FillTemplate(t, ObjectNameSlot, p.objectName);
    var t2 := FillTemplate(t1, AspectRatioSlot, AspectRatioText(p.aspectRatio));
    FillTemplate(t2, DetailLevelSlot, DetailLevelText(p.detailLevel))
  }

  function Substitute(p: GenerationParams): ImageTemplate
  {
    SubstituteIn(SelectTemplate(p.category, p.mode), p)
  }

  /** No placeholder survives the substitution, and the style tags and negative prompt pass through unchanged. */
  lemma NoPlaceholderSurvives(p: GenerationParams)
    ensures forall q :: Count(Substitute(p).description, q) == 0 && CountHints(Substitute(p).hints, q) == 0
    ensures Substitute(p).styleTags == SelectTemplate(p.category, p.mode).styleTags
    ensures Substitute(p).negativePrompt == SelectTemplate(p.category, p.mode).negativePrompt
  {
    SelectTemplateShape(p.category, p.mode);
    SubstituteInClears(SelectTemplate(p.category, p.mode), p);
  }

  lemma SubstituteInClears(t: ImageTemplate, p: GenerationParams)
    requires Resolvable(t)
    ensures forall q :: Count(SubstituteIn(t, p).description, q) == 0 && CountHints(SubstituteIn(t, p).hints, q) == 0
    ensures SubstituteIn(t, p).styleTags == t.styleTags && SubstituteIn(t, p).negativePrompt == t.negativePrompt
  {
    forall q ensures Count(SubstituteIn(t, p).description, q) == 0 && CountHints(SubstituteIn(t, p).hints, q) == 0
    {
      match q
      case ObjectNameSlot =>
      case AspectRatioSlot =>
      case DetailLevelSlot =>
      case CategorySlot =>
    }
  }

  // ---------------------------------------------------------------------
  // The clauses appended to the base prompt

  const LabelsClause := " Ensure clear numbered labels with white leader lines."
  const NoLabelsClause := " Do not include text labels or callout lines."
  const KidSafeClause := " Ensure the visual is clinically clean, educational, and suitable for all ages (no gore)."
  const UltraClause := " Render in 8K resolution, ultra-high definition, 100 megapixel texture fidelity."

  function HintClause(hint: string): string
  {
    " User hint for context: " + hint + "."
  }

  const FallbackPrefix := "Exploded view of "

  /**
   * `buildPrompt`: the base prompt, then the label clause, the kid-safe
   * clause, the 8K clause and the user hint, each appended when its
   * condition holds.
   */
  function BuildPrompt(p: GenerationParams, parses: ImageTemplate -> bool): string
  {
    var t := Substitute(p);
    if parses(t) then Decorate(Render(t.description), p) else FallbackPrefix + p.objectName
  }

  /** The conditional appends of `buildPrompt`, on a given base prompt. */
  function Decorate(base: string, p: GenerationParams): string
  {
    var labelled := base + ClauseText(LabelClause(p));
    var kid := labelled + OptText(KidSafeWanted(p), KidSafe);
    var ultra := kid + OptText(p.detailLevel == Ultra, UltraDetail);
    ultra + OptText(HintWanted(p), UserHint(HintOf(p)))
  }

  /** A clause's text when its condition holds, nothing otherwise. */
  function OptText(b: bool, c: Clause): string
  {
    if b then ClauseText(c) else ""
  }

  function LabelClause(p: GenerationParams): Clause
  {
    if p.showLabels then NumberedLabels else NoLabels
  }

  predicate KidSafeWanted(p: GenerationParams)
  {
    p.category == Organic && p.isKidFriendly
  }

  predicate HintWanted(p: GenerationParams)
  {
    p.mode == PhotoMode && Truthy(p.userHint)
  }

  function HintOf(p: GenerationParams): string
  {
    if p.userHint.Some? then p.userHint.value else ""
  }

  // ---------------------------------------------------------------------
  // The clause list: which clauses, in which order

  datatype Clause = NumberedLabels | NoLabels | KidSafe | UltraDetail | UserHint(hint: string)

  function ClauseText(c: Clause): string
  {
    match c
    case NumberedLabels => LabelsClause
    case NoLabels => NoLabelsClause
    case KidSafe => KidSafeClause
    case UltraDetail => UltraClause
    case UserHint(h) => HintClause(h)
  }

  /** Position of a clause in the fixed order; the two label clauses share the first place. */
  function Rank(c: Clause): nat
  {
    match c
    case NumberedLabels => 0
    case NoLabels => 0
    case KidSafe => 1
    case UltraDetail => 2
    case UserHint(_) => 3
  }

  /**
   * The clauses a successful resolution appends: exactly one label clause,
   * first; the kid-safe clause iff organic and kid-friendly; the 8K clause
   * iff Ultra; the hint iff photo mode with a non-empty hint (the order
   * is `ClausesInOrder`).
   */
  function Clauses(p: GenerationParams): (cs: seq<Clause>)
    ensures |cs| >= 1 && cs[0] == (if p.showLabels then NumberedLabels else NoLabels)
    ensures NumberedLabels in cs <==> p.showLabels
    ensures NoLabels in cs <==> !p.showLabels
    ensures KidSafe in cs <==> p.category == Organic && p.isKidFriendly
    ensures UltraDetail in cs <==> p.detailLevel == Ultra
    ensures (exists i :: 0 <= i < |cs| && cs[i].UserHint?) <==> p.mode == PhotoMode && Truthy(p.userHint)
    ensures forall i :: 0 <= i < |cs| && cs[i].UserHint? ==> Some(cs[i].hint) == p.userHint
  {
    var cs := [LabelClause(p)] + Opt(KidSafeWanted(p), KidSafe) + Opt(p.detailLevel == Ultra, UltraDetail)
      + Opt(HintWanted(p), UserHint(HintOf(p)));
    assert HintWanted(p) ==> cs[|cs| - 1] == UserHint(HintOf(p));
    cs
  }

  /** Ranks strictly increase along `cs`. */
  predicate Ranked(cs: seq<Clause>)
  {
    forall i, j :: 0 <= i < j < |cs| ==> Rank(cs[i]) < Rank(cs[j])
  }

  /** Every rank in `cs` lies in `lo..hi`. */
  predicate RanksWithin(cs: seq<Clause>, lo: nat, hi: nat)
  {
    forall i :: 0 <= i < |cs| ==> lo <= Rank(cs[i]) <= hi
  }

  /** The clauses come strictly in the fixed order, so none is repeated. */
  lemma ClausesInOrder(p: GenerationParams)
    ensures Ranked(Clauses(p))
  {
    var l := [LabelClause(p)];
    var k := Opt(KidSafeWanted(p), KidSafe);
    var u := Opt(p.detailLevel == Ultra, UltraDetail);
    var h := Opt(HintWanted(p), UserHint(HintOf(p)));
    assert Ranked(l) && RanksWithin(l, 0, 0);
    RankedAppend(l, k, 0, 1, 1);
    RankedAppend(l + k, u, 1, 2, 2);
    RankedAppend(l + k + u, h, 2, 3, 3);
  }

  /** Two ranked runs, the second ranked above the first, make one ranked run. */
  lemma RankedAppend(a: seq<Clause>, b: seq<Clause>, mid: nat, lo: nat, hi: nat)
    requires Ranked(a) && RanksWithin(a, 0, mid)
    requires |b| <= 1 && RanksWithin(b, lo, hi) && mid < lo <= hi
    ensures Ranked(a + b) && RanksWithin(a + b, 0, hi)
  {
    var ab := a + b;
    forall i, j | 0 <= i < j < |ab| ensures Rank(ab[i]) < Rank(ab[j]) {
      if j < |a| {
        assert ab[i] == a[i] && ab[j] == a[j];
      } else {
        assert ab[i] == a[i] && ab[j] == b[j - |a|];
      }
    }
    forall i | 0 <= i < |ab| ensures 0 <= Rank(ab[i]) <= hi {
      if i < |a| { assert ab[i] == a[i]; } else { assert ab[i] == b[i - |a|]; }
    }
  }

  function Opt(b: bool, c: Clause): seq<Clause>
  {
    if b then [c] else []
  }

  function Concat(cs: seq<Clause>): string
  {
    if cs == [] then "" else ClauseText(cs[0]) + Concat(cs[1..])
  }

  lemma {:induction false} ConcatAppend(a: seq<Clause>, b: seq<Clause>)
    ensures Concat(a + b) == Concat(a) + Concat(b)
  {
    if a == [] {
      assert a + b == b;
    } else {
      assert (a + b)[1..] == a[1..] + b;
      ConcatAppend(a[1..], b);
    }
  }

  /** On the success path the prompt is the substituted description followed by the clause list's texts. */
  lemma BuildPromptShape(p: GenerationParams, parses: ImageTemplate -> bool)
    ensures parses(Substitute(p)) ==>
              BuildPrompt(p, parses) == Render(Substitute(p).description) + Concat(Clauses(p))
    ensures !parses(Substitute(p)) ==> BuildPrompt(p, parses) == FallbackPrefix + p.objectName
  {
    DecorateIsConcat(Render(Substitute(p).description), p);
  }

  /** The appended text is exactly the clause list's texts, in order. */
  lemma DecorateIsConcat(base: string, p: GenerationParams)
    ensures Decorate(base, p) == base + Concat(Clauses(p))
  {
    var a, b, c, d := [LabelClause(p)], Opt(KidSafeWanted(p), KidSafe), Opt(p.detailLevel == Ultra, UltraDetail),
      Opt(HintWanted(p), UserHint(HintOf(p)));
    ConcatAppend(a, b);
    ConcatAppend(a + b, c);
    ConcatAppend(a + b + c, d);
    ConcatSingle(LabelClause(p));
    ConcatOpt(KidSafeWanted(p), KidSafe);
    ConcatOpt(p.detailLevel == Ultra, UltraDetail);
    ConcatOpt(HintWanted(p), UserHint(HintOf(p)));
    Assoc(base, Concat(a), Concat(b), Concat(c), Concat(d));
  }

  lemma ConcatSingle(c: Clause)
    ensures Concat([c]) == ClauseText(c)
  {
    assert [c][1..] == [];
  }

  lemma ConcatOpt(b: bool, c: Clause)
    ensures Concat(Opt(b, c)) == OptText(b, c)
  {
    if b {
      ConcatSingle(c);
    }
  }

  lemma Assoc(s: string, w: string, x: string, y: string, z: string)
    ensures s + w + x + y + z == s + (w + x + y + z)
  {
  }

  /**
   * An object name that `buildPrompt`'s text handling leaves as it is.
   *
   * The source replaces the placeholders in the template's JSON text one
   * after another, so a `{` in the name can start a token that a later
   * replacement rewrites (`TokenInNameIsRewritten`). `JSON.parse` then
   * decodes a `\` escape in the name, and a `"` ends the string early.
   * The slot fills of this model match the source only for names without
   * those three characters.
   */
  predicate PlainName(name: string)
  {
    Lacks(name, '{') && Lacks(name, '\\') && Lacks(name, '"')
  }

  /** Whatever happens, the prompt names the object: the description writes it, and so does the fallback. */
  lemma PromptMentionsObject(p: GenerationParams, parses: ImageTemplate -> bool)
    requires PlainName(p.objectName)
    ensures Includes(BuildPrompt(p, parses), p.objectName)
  {
    SelectTemplateShape(p.category, p.mode);
    SubstituteInMentions(SelectTemplate(p.category, p.mode), p);
    BuildPromptShape(p, parses);
    MentionsEither(parses(Substitute(p)), Render(Substitute(p).description), Concat(Clauses(p)),
                   p.objectName, BuildPrompt(p, parses));
  }

  lemma MentionsEither(ok: bool, base: string, rest: string, name: string, r: string)
    requires Includes(base, name)
    requires ok ==> r == base + rest
    requires !ok ==> r == FallbackPrefix + name
    ensures Includes(r, name)
  {
    if ok {
      IncludesExtend("", base, rest, name);
      assert "" + base + rest == r;
    } else {
      IncludesInfix(FallbackPrefix, name, "");
      assert FallbackPrefix + name + "" == r;
    }
  }

  lemma SubstituteInMentions(t: ImageTemplate, p: GenerationParams)
    requires Resolvable(t)
    ensures Includes(Render(SubstituteIn(t, p).description), p.objectName)
  {
    var d1 := Fill(t.description, ObjectNameSlot, p.objectName);
    FillWritesValue(t.description, ObjectNameSlot, p.objectName);
    var d2 := Fill(d1, AspectRatioSlot, AspectRatioText(p.aspectRatio));
    FillKeepsLit(d1, AspectRatioSlot, AspectRatioText(p.aspectRatio), p.objectName);
    var d3 := Fill(d2, DetailLevelSlot, DetailLevelText(p.detailLevel));
    FillKeepsLit(d2, DetailLevelSlot, DetailLevelText(p.detailLevel), p.objectName);
    RenderIncludesLit(d3, p.objectName);
  }

  /** Electronics resolves exactly like technical: the same template and the same clauses. */
  lemma ElectronicsResolvesAsTechnical(p: GenerationParams, parses: ImageTemplate -> bool)
    requires p.category == Electronics
    ensures Substitute(p) == Substitute(p.(category := Technical))
    ensures BuildPrompt(p, parses) == BuildPrompt(p.(category := Technical), parses)
  {
  }

  /** The base prompt does not depend on the aspect ratio or the detail level: those placeholders live only in the hints. */
  lemma BaseIgnoresRatioAndDetail(p: GenerationParams, a: AspectRatio, d: DetailLevel)
    requires PlainName(p.objectName)
    ensures Substitute(p).description == Substitute(p.(aspectRatio := a, detailLevel := d)).description
  {
    SelectTemplateShape(p.category, p.mode);
    SubstituteInIgnores(SelectTemplate(p.category, p.mode), p, a, d);
  }

  lemma SubstituteInIgnores(t: ImageTemplate, p: GenerationParams, a: AspectRatio, d: DetailLevel)
    requires Resolvable(t) && PlainName(p.objectName)
    ensures SubstituteIn(t, p).description == SubstituteIn(t, p.(aspectRatio := a, detailLevel := d)).description
  {
    var d1 := Fill(t.description, ObjectNameSlot, p.objectName);
    FillRemovesOnly(t.description, ObjectNameSlot, p.objectName, AspectRatioSlot);
    FillRemovesOnly(t.description, ObjectNameSlot, p.objectName, DetailLevelSlot);
    FillAbsent(d1, AspectRatioSlot, AspectRatioText(p.aspectRatio));
    FillAbsent(d1, AspectRatioSlot, AspectRatioText(a));
    FillAbsent(d1, DetailLevelSlot, DetailLevelText(p.detailLevel));
    FillAbsent(d1, DetailLevelSlot, DetailLevelText(d));
  }

  /** So, for the same parse outcome, changing the aspect ratio leaves the prompt as it was. */
  lemma PromptIgnoresRatio(p: GenerationParams, a: AspectRatio, parses: ImageTemplate -> bool)
    requires PlainName(p.objectName)
    requires parses(Substitute(p)) == parses(Substitute(p.(aspectRatio := a)))
    ensures BuildPrompt(p, parses) == BuildPrompt(p.(aspectRatio := a), parses)
  {
    BaseIgnoresRatioAndDetail(p, a, p.detailLevel);
    assert p.(aspectRatio := a) == p.(aspectRatio := a, detailLevel := p.detailLevel);
  }

  /**
   * The substituted description is what JavaScript's three global
   * replacements make of the template's description text, provided the
   * template text and the object name hold no `{`.
   */
  lemma SubstituteIsReplace(p: GenerationParams)
    requires PlainLits(SelectTemplate(p.category, p.mode).description) && Lacks(p.objectName, '{')
    ensures ReplaceAll(ReplaceAll(ReplaceAll(Render(SelectTemplate(p.category, p.mode).description),
                                             Token(ObjectNameSlot), p.objectName),
                                  Token(AspectRatioSlot), AspectRatioText(p.aspectRatio)),
                       Token(DetailLevelSlot), DetailLevelText(p.detailLevel))
            == Render(Substitute(p).description)
  {
    var d0 := SelectTemplate(p.category, p.mode).description;
    var ratio, detail := AspectRatioText(p.aspectRatio), DetailLevelText(p.detailLevel);
    EnumTextsPlain(p.aspectRatio, p.detailLevel);
    RenderReplaceAll(d0, ObjectNameSlot, p.objectName);
    var d1 := Fill(d0, ObjectNameSlot, p.objectName);
    FillKeepsPlain(d0, ObjectNameSlot, p.objectName);
    RenderReplaceAll(d1, AspectRatioSlot, ratio);
    var d2 := Fill(d1, AspectRatioSlot, ratio);
    FillKeepsPlain(d1, AspectRatioSlot, ratio);
    RenderReplaceAll(d2, DetailLevelSlot, detail);
  }

  lemma EnumTextsPlain(a: AspectRatio, d: DetailLevel)
    ensures Lacks(AspectRatioText(a), '{') && Lacks(DetailLevelText(d), '{')
  {
  }

  /** The request of the first end-to-end scenario: a technical, text-mode, Ultra turbocharger with labels gets the label and 8K clauses only. */
  lemma TurbochargerScenario(base: string, kid: bool, ref: Option<string>, hint: Option<string>)
    ensures var p := GenerationParams("Turbocharger", Technical, Ratio16x9, Ultra, true, kid, TextMode, ref, hint);
      Clauses(p) == [NumberedLabels, UltraDetail]
      && Decorate(base, p) == base + LabelsClause + UltraClause
  {
  }

  /** The second end-to-end scenario: a kid-friendly, organic, text-mode, Standard human heart gets the label clause and the kid-safe clause, and no 8K clause. */
  lemma HumanHeartScenario(base: string, ratio: AspectRatio, labels: bool, ref: Option<string>, hint: Option<string>)
    ensures var p := GenerationParams("Human Heart", Organic, ratio, Standard, labels, true, TextMode, ref, hint);
      Clauses(p) == [LabelClause(p), KidSafe]
      && UltraDetail !in Clauses(p)
      && Decorate(base, p) == base + ClauseText(LabelClause(p)) + KidSafeClause
  {
  }

  /**
   * Why `PlainName` is needed: the source's chained replacements rewrite a
   * token that the object name brings in. "of {OBJECT_NAME}" with the name
   * "W{DETAIL_LEVEL}" and detail High becomes "of WHigh", while filling the
   * name's slot writes the name as it is (`TokenInNameIsKept`).
   */
  lemma TokenInNameIsRewritten()
    ensures var name := "W" + Token(DetailLevelSlot);
      ReplaceAll(ReplaceAll("of " + Token(ObjectNameSlot), Token(ObjectNameSlot), name), Token(DetailLevelSlot), "High")
      == "of WHigh"
  {
    var tok, dtok := Token(ObjectNameSlot), Token(DetailLevelSlot);
    var name := "W" + dtok;
    assert ReplaceAll("of " + tok, tok, name) == ("of " + "W") + dtok by {
      ReplaceAllSkip("of ", tok, tok, name);
      ReplaceAllHit("", tok, name);
      assert tok + "" == tok;
      AppendAssoc("of ", "W", dtok);
    }
    assert ReplaceAll(("of " + "W") + dtok, dtok, "High") == ("of " + "W") + "High" by {
      ReplaceAllSkip("of " + "W", dtok, dtok, "High");
      ReplaceAllHit("", dtok, "High");
      assert dtok + "" == dtok;
    }
  }

  /** The model's slot fills keep the token inside the name as written. */
  lemma TokenInNameIsKept()
    ensures var name := "W" + Token(DetailLevelSlot);
      var d := [Lit("of "), Slot(ObjectNameSlot)];
      Render(Fill(Fill(d, ObjectNameSlot, name), DetailLevelSlot, "High")) == "of " + name
  {
    var name := "W" + Token(DetailLevelSlot);
    var d := [Lit("of "), Slot(ObjectNameSlot)];
    assert Fill(Fill(d, ObjectNameSlot, name), DetailLevelSlot, "High") == [Lit("of "), Lit(name)];
    RenderCons(Lit("of "), [Lit(name)]);
    RenderCons(Lit(name), []);
  }
}
