/**
 * `build_story_prompt`: the prompt for one part of a story. It looks up the instruction fragments
 * for the expertise, tone and writing style, fills either the built-in body or a custom template,
 * appends the guidance for the part's position and ends with a fixed continuity reminder.
 */
module PromptBuilder {
  import opened Wrappers
  import opened Text
  import Numerals
  import Config
  import opened Templates

  /** `expertise_instructions.get(expertise, '')` */
  function ExpertiseInstruction(expertise: string): string {
    var instructions := map[
      "storyteller" := "Present the opinion in a narrative style with real-world examples",
      "novelist" := "Provide a detailed analysis with rich context and character perspectives",
      "journalist" := "Present factual, well-researched information with current events",
      "poet" := "Express the opinion through metaphors and emotional resonance",
      "screenwriter" := "Frame the opinion through dialogue and real-world scenarios",
      "critic" := "Analyze the topic with critical thinking and balanced perspectives",
      "researcher" := "Present in-depth analysis with academic rigor and citations",
      "educator" := "Explain concepts clearly with examples and learning objectives",
      "analyst" := "Provide data-driven insights and expert analysis"
    ];
    if expertise in instructions then instructions[expertise] else ""
  }

  /** `tone_instructions.get(tone, '')` */
  function ToneInstruction(tone: string): string {
    var instructions := map[
      "funny" := "Include humor while maintaining respect for serious topics",
      "serious" := "Maintain a professional and formal tone",
      "dramatic" := "Emphasize significant impacts and consequences",
      "sarcastic" := "Use clever observations while staying constructive",
      "critical" := "Provide balanced analysis with supporting evidence",
      "mysterious" := "Explore hidden aspects and implications",
      "emotional" := "Focus on human impact and personal experiences",
      "neutral" := "Present balanced viewpoints without bias",
      "educational" := "Focus on clear explanations and learning outcomes",
      "technical" := "Use precise terminology while remaining accessible",
      "casual" := "Maintain an approachable, conversational style"
    ];
    if tone in instructions then instructions[tone] else ""
  }

  /** `category_instructions.get(writing_style, category_instructions['balanced'])` */
  function StyleInstruction(style: string): string {
    var instructions := map[
      "factual" :=
        "\n" +
        "            - Focus on verified facts and data\n" +
        "            - Include statistics and research findings\n" +
        "            - Cite credible sources and studies\n" +
        "            - Present objective information\n" +
        "            - Minimize speculation and opinion\n" +
        "        ",
      "relatable" :=
        "\n" +
        "            - Use real-world examples and scenarios\n" +
        "            - Connect concepts to daily life\n" +
        "            - Share personal experiences and anecdotes\n" +
        "            - Make complex ideas accessible\n" +
        "            - Include practical applications\n" +
        "        ",
      "analytical" :=
        "\n" +
        "            - Break down complex concepts\n" +
        "            - Examine cause and effect relationships\n" +
        "            - Compare and contrast different aspects\n" +
        "            - Evaluate pros and cons\n" +
        "            - Provide detailed analysis\n" +
        "        ",
      "narrative" :=
        "\n" +
        "            - Tell a compelling story\n" +
        "            - Use character perspectives\n" +
        "            - Create engaging scenarios\n" +
        "            - Build narrative tension\n" +
        "            - Include descriptive details\n" +
        "        ",
      "practical" :=
        "\n" +
        "            - Focus on actionable insights\n" +
        "            - Provide step-by-step guidance\n" +
        "            - Include hands-on examples\n" +
        "            - Share best practices\n" +
        "            - Offer practical solutions\n" +
        "        ",
      "balanced" :=
        "\n" +
        "            - Present multiple viewpoints\n" +
        "            - Consider different perspectives\n" +
        "            - Weigh advantages and disadvantages\n" +
        "            - Provide balanced analysis\n" +
        "            - Include diverse examples\n" +
        "        "
    ];
    if style in instructions then instructions[style] else instructions["balanced"]
  }

  /** An expertise contributes an empty instruction exactly when it is not an allowed level; it is never an error. */
  lemma ExpertiseFallback(expertise: string)
    ensures ExpertiseInstruction(expertise) == "" <==> expertise !in Config.ExpertiseLevels
  {
  }

  /** A tone contributes an empty instruction exactly when it is not an allowed tone; it is never an error. */
  lemma ToneFallback(tone: string)
    ensures ToneInstruction(tone) == "" <==> tone !in Config.ToneStyles
  {
  }

  /** A writing style gets the 'balanced' guidelines exactly when it is 'balanced' or not an allowed style. */
  lemma StyleFallback(style: string)
    ensures StyleInstruction(style) == StyleInstruction("balanced") <==>
      style == "balanced" || style !in Config.WritingStyles
  {
  }

  const ContextHeader: string := "\nAdditional Context:\n"

  /** The additional-context section: present exactly when there is a context. */
  function ContextText(context: string): (r: string)
    ensures r == "" <==> context == ""
    ensures context != "" ==> StartsWith(r, ContextHeader) && r[|ContextHeader|..] == context
  {
    if context != "" then ContextHeader + context else ""
  }

  const PreviousHeader: string := "\nPrevious parts summary:\n"

  /** The previous-parts section: present exactly when there are summaries and the part is not the first. */
  function PreviousContext(previous: seq<string>, part: int): (r: string)
    ensures r == "" <==> previous == [] || part <= 1
    ensures r != "" ==> StartsWith(r, PreviousHeader) && r[|PreviousHeader|..] == Join("\n", previous)
  {
    if previous != [] && part > 1 then PreviousHeader + Join("\n", previous) else ""
  }

  /** The values the body is filled with, each already rendered as text. */
  datatype Fill = Fill(
    partNumber: string,
    totalParts: string,
    topic: string,
    topicCategory: string,
    contextText: string,
    previousContext: string,
    expertise: string,
    expertiseInstructions: string,
    tone: string,
    toneInstructions: string,
    categoryInstructions: string)

  /** The values `build_story_prompt` computes before it fills the body, with the instructions looked up in `t`. */
  function FillFor(t: Texts, topic: string, expertise: string, tone: string, context: string, part: int, total: int,
                   previous: seq<string>, style: string): Fill
  {
    Fill(Numerals.IntToString(part), Numerals.IntToString(total), topic, Config.TopicCategory(topic),
      ContextText(context), PreviousContext(previous, part), expertise, t.expertise(expertise),
      tone, t.tone(tone), t.style(style))
  }

  /** The keyword arguments a custom template is formatted with. */
  const PlaceholderNames: set<string> := {
    "part_number", "total_parts", "topic", "topic_category", "context_text", "previous_context",
    "expertise", "expertise_instructions", "tone", "tone_instructions", "category_instructions"
  }

  /** `custom_template.format(part_number=..., ..., category_instructions=...)`'s keyword arguments. */
  function Arguments(f: Fill): (m: map<string, string>)
    ensures m.Keys == PlaceholderNames
  {
    map[
      "part_number" := f.partNumber,
      "total_parts" := f.totalParts,
      "topic" := f.topic,
      "topic_category" := f.topicCategory,
      "context_text" := f.contextText,
      "previous_context" := f.previousContext,
      "expertise" := f.expertise,
      "expertise_instructions" := f.expertiseInstructions,
      "tone" := f.tone,
      "tone_instructions" := f.toneInstructions,
      "category_instructions" := f.categoryInstructions
    ]
  }

  /** The built-in body, the f-string used when there is no custom template. */
  function BuiltInBody(f: Fill): string {
    "\n" +
    "        Generate part " +
    f.partNumber +
    " of " +
    f.totalParts +
    " discussing this topic: " +
    f.topic +
    "\n" +
    "        Category: " +
    f.topicCategory +
    "\n" +
    "        " +
    f.contextText +
    "\n" +
    "        " +
    f.previousContext +
    "\n" +
    "        \n" +
    "        Writing Guidelines:\n" +
    "        - Write as a " +
    f.expertise +
    ": " +
    f.expertiseInstructions +
    "\n" +
    "        - Use a " +
    f.tone +
    " tone: " +
    f.toneInstructions +
    "\n" +
    "        \n" +
    "        Writing Style Guidelines:\n" +
    "        " +
    f.categoryInstructions +
    "\n" +
    "        \n" +
    "        General Requirements:\n" +
    "        - Focus on accuracy and relevance\n" +
    "        - Include specific examples and references\n" +
    "        - Consider multiple perspectives\n" +
    "        - Support statements with evidence\n" +
    "        - Address potential questions or concerns\n" +
    "        - Provide practical insights when applicable\n" +
    "        - AVOID repeating information from previous parts\n" +
    "        - Build upon and expand previous discussions\n" +
    "        - Introduce new aspects and perspectives\n" +
    "        \n" +
    "        Structure Requirements:\n" +
    "        - Minimum length: 4000 characters\n" +
    "        - Use clear paragraphs and transitions\n" +
    "        - Include relevant data when applicable\n" +
    "        - Balance theory and practice\n" +
    "        - Maintain professional yet accessible language\n" +
    "        - Format for easy reading and comprehension\n" +
    "        "
  }

  /** Where a part stands in the story. */
  datatype Position = Opening | Final | EarlyMiddle | Middle | LateMiddle

  /**
   * The fixed texts a prompt is assembled from: the instruction looked up for an expertise, a tone
   * and a writing style, the built-in body, and the closing that follows the body. The properties of
   * the builder hold whatever the texts are; `Source` holds the ones `build_story_prompt` uses.
   */
  datatype Texts = Texts(
    expertise: string -> string,
    tone: string -> string,
    style: string -> string,
    builtIn: Fill -> string,
    closing: Position -> string)

  const Source: Texts := Texts(ExpertiseInstruction, ToneInstruction, StyleInstruction, BuiltInBody, Closing)

  /** The exceptions building a prompt can raise. */
  datatype PromptError = TemplateError(error: FormatError) | ZeroDivision

  /** `str(e)` */
  function ErrorMessage(e: PromptError): string {
    match e
    case TemplateError(t) => Message(t)
    case ZeroDivision => "division by zero"
  }

  /**
   * The guidance chosen for part `part` of `total`; a middle band compares the float
   * `(part - 1) / (total - 1)` with 0.33 and 0.66, here as exact rationals.
   */
  function PositionOf(part: int, total: int): (r: Result<Position, PromptError>)
    ensures part == 1 ==> r == Success(Opening)
    ensures part != 1 && part == total ==> r == Success(Final)
    ensures r.Failure? <==> part != 1 && part != total && total == 1
  {
    if part == 1 then Success(Opening)
    else if part == total then Success(Final)
    else if total - 1 == 0 then Failure(ZeroDivision)
    else
      var focus := (part - 1) as real / (total - 1) as real;
      if focus < 0.33 then Success(EarlyMiddle)
      else if focus < 0.66 then Success(Middle)
      else Success(LateMiddle)
  }

  /**
   * The guidance for each position: part 1 opens, the last part (when it is not part 1) concludes,
   * and a middle part gets the text of its third.
   */
  function GuidanceText(p: Position): string {
    match p
    case Opening =>
      "\n" +
      "        \n" +
      "For this opening part:\n" +
      "        - Introduce the topic and its significance\n" +
      "        - Provide essential background information\n" +
      "        - Present the foundational concepts\n" +
      "        - Outline the key aspects to be explored in later parts\n" +
      "        - Set up the framework for subsequent discussions\n" +
      "        "
    case Final =>
      "\n" +
      "        \n" +
      "For this final part:\n" +
      "        - Build upon previous discussions without repeating them\n" +
      "        - Explore advanced concepts and implications\n" +
      "        - Draw connections between all previous parts\n" +
      "        - Synthesize insights from earlier sections\n" +
      "        - Provide forward-looking conclusions\n" +
      "        - Offer unique perspectives and recommendations\n" +
      "        "
    case EarlyMiddle =>
      "\n" +
      "            \n" +
      "For this early-middle part:\n" +
      "            - Expand on the foundational concepts\n" +
      "            - Introduce new perspectives and angles\n" +
      "            - Deepen the analysis with specific examples\n" +
      "            - Avoid repeating basic information\n" +
      "            - Bridge to more complex aspects\n" +
      "            "
    case Middle =>
      "\n" +
      "            \n" +
      "For this middle part:\n" +
      "            - Focus on complex interconnections\n" +
      "            - Present contrasting viewpoints\n" +
      "            - Analyze practical applications\n" +
      "            - Introduce advanced concepts\n" +
      "            - Avoid retreading earlier discussions\n" +
      "            "
    case LateMiddle =>
      "\n" +
      "            \n" +
      "For this late-middle part:\n" +
      "            - Explore sophisticated implications\n" +
      "            - Present expert insights\n" +
      "            - Address emerging trends\n" +
      "            - Connect to broader contexts\n" +
      "            - Prepare for concluding insights\n" +
      "            "
  }

  /** The guidance for the part's position followed by the continuity reminder every prompt ends with. */
  function Closing(p: Position): string {
    GuidanceText(p) +
    "\n" +
    "    \n" +
    "CRITICAL CONTINUITY REQUIREMENTS:\n" +
    "    - Each part must progress the discussion forward\n" +
    "    - Never repeat information from previous parts\n" +
    "    - Reference previous concepts only to build upon them\n" +
    "    - Introduce new aspects and perspectives in each part\n" +
    "    - Ensure a logical flow between parts\n" +
    "    - Maintain consistent terminology while exploring new areas\n" +
    "    "
  }

  /** The body: the custom template when it is non-empty, formatted with the arguments, else the built-in one. */
  function TemplateBody(t: Texts, custom: string, f: Fill): (r: Result<string, PromptError>)
    ensures custom == "" ==> r == Success(t.builtIn(f))
    ensures custom != "" ==> (r.Success? <==> Fillable(Tokenize(custom), Arguments(f)))
  {
    FormatSucceedsIff(Tokenize(custom), Arguments(f));
    if custom == "" then Success(t.builtIn(f))
    else
      match Format(Tokenize(custom), Arguments(f))
      case Success(b) => Success(b)
      case Failure(e) => Failure(TemplateError(e))
  }

  /** `build_story_prompt` over the texts `t`: the body, then the closing for the part's position. */
  function BuildWith(t: Texts, topic: string, expertise: string, tone: string, context: string, part: int, total: int,
                     previous: seq<string>, custom: string, style: string): (r: Result<string, PromptError>)
    ensures r.Success? <==>
      TemplateBody(t, custom, FillFor(t, topic, expertise, tone, context, part, total, previous, style)).Success? &&
      PositionOf(part, total).Success?
    ensures r.Success? ==>
      StartsWith(r.value, TemplateBody(t, custom, FillFor(t, topic, expertise, tone, context, part, total, previous, style)).value) &&
      EndsWith(r.value, t.closing(PositionOf(part, total).value))
    ensures r.Failure? && TemplateBody(t, custom, FillFor(t, topic, expertise, tone, context, part, total, previous, style)).Success? ==>
      r.error == ZeroDivision
  {
    var f := FillFor(t, topic, expertise, tone, context, part, total, previous, style);
    var body :- TemplateBody(t, custom, f);
    var position :- PositionOf(part, total);
    Success(body + t.closing(position))
  }

  /** `build_story_prompt(topic, expertise, tone, context, part_number, total_parts, previous_parts, custom_template, writing_style)` */
  function BuildStoryPrompt(topic: string, expertise: string, tone: string, context: string, part: int, total: int,
                            previous: seq<string>, custom: string, style: string): Result<string, PromptError>
  {
    BuildWith(Source, topic, expertise, tone, context, part, total, previous, custom, style)
  }

  /** `x / y < a / b` on rationals is a comparison of cross products when both denominators are positive. */
  lemma RatioBelow(x: int, y: int, a: int, b: int)
    requires y > 0 && b > 0
    ensures x as real / y as real < a as real / b as real <==> x * b < a * y
  {
    var q := x as real / y as real;
    var c := a as real / b as real;
    assert q * y as real == x as real;
    assert c * b as real == a as real;
    assert (x * b) as real == q * (y as real * b as real);
    assert (a * y) as real == c * (y as real * b as real);
    var d := y as real * b as real;
    assert d > 0.0;
    if q < c {
      assert q * d < c * d;
    }
    if c <= q {
      assert c * d <= q * d;
    }
  }

  /**
   * For more than one part, a part that is neither the first nor the last falls in the band that
   * `100(p-1)` takes against `33(t-1)` and `66(t-1)`.
   */
  lemma PositionBands(part: int, total: int)
    requires total > 1 && part != 1 && part != total
    ensures PositionOf(part, total) == Success(EarlyMiddle) <==> 100 * (part - 1) < 33 * (total - 1)
    ensures PositionOf(part, total) == Success(Middle) <==> 33 * (total - 1) <= 100 * (part - 1) < 66 * (total - 1)
    ensures PositionOf(part, total) == Success(LateMiddle) <==> 66 * (total - 1) <= 100 * (part - 1)
  {
    assert 0.33 == 33 as real / 100 as real;
    assert 0.66 == 66 as real / 100 as real;
    RatioBelow(part - 1, total - 1, 33, 100);
    RatioBelow(part - 1, total - 1, 66, 100);
  }

  /** A part between 1 and the total never reaches the division by zero, whatever the template. */
  lemma NoDivisionInRange(part: int, total: int)
    requires 1 <= part <= total
    ensures PositionOf(part, total).Success?
  {
  }

  /** Every placeholder name is a keyword, neither empty nor a positional index. */
  lemma PlaceholderNamesAreKeywords()
    ensures forall n :: n in PlaceholderNames ==> n != "" && !AllDigits(n) && !Overflows(n) && BraceFree(n)
  {
    forall n | n in PlaceholderNames ensures n != "" && !AllDigits(n) && !Overflows(n) && BraceFree(n) {
      assert !Numerals.IsDigit(n[0]);
      KeywordNoOverflow(n);
      assert forall i :: 0 <= i < |n| ==> 'a' <= n[i] <= 'z' || n[i] == '_';
    }
  }

  /**
   * A custom template can be filled exactly when it is well formed and names only the eleven
   * placeholders; any other field name fails.
   */
  lemma CustomFillableIff(custom: string, f: Fill)
    ensures Fillable(Tokenize(custom), Arguments(f)) <==>
      NoMalformed(Tokenize(custom)) &&
      forall i :: 0 <= i < |Tokenize(custom)| && Tokenize(custom)[i].Field? ==> Tokenize(custom)[i].name in PlaceholderNames
  {
    PlaceholderNamesAreKeywords();
    var ps := Tokenize(custom);
    if Fillable(ps, Arguments(f)) {
      forall i | 0 <= i < |ps| ensures !ps[i].Malformed? {
        assert Expand(ps[i], Arguments(f)).Success?;
      }
      forall i | 0 <= i < |ps| && ps[i].Field? ensures ps[i].name in PlaceholderNames {
        assert Expand(ps[i], Arguments(f)).Success?;
      }
    }
  }

  /** A custom template naming a field outside the eleven placeholders makes the prompt fail. */
  lemma UnknownPlaceholderFails(t: Texts, topic: string, expertise: string, tone: string, context: string, part: int, total: int,
                                previous: seq<string>, custom: string, style: string, i: nat)
    requires custom != ""
    requires i < |Tokenize(custom)| && Tokenize(custom)[i].Field? && Tokenize(custom)[i].name !in PlaceholderNames
    ensures BuildWith(t, topic, expertise, tone, context, part, total, previous, custom, style).Failure?
  {
    var f := FillFor(t, topic, expertise, tone, context, part, total, previous, style);
    CustomFillableIff(custom, f);
  }

  /** A template error is raised before the guidance is chosen, so it wins over a division by zero. */
  lemma TemplateErrorFirst(t: Texts, topic: string, expertise: string, tone: string, context: string, part: int, total: int,
                           previous: seq<string>, custom: string, style: string)
    ensures TemplateBody(t, custom, FillFor(t, topic, expertise, tone, context, part, total, previous, style)).Failure? ==>
      BuildWith(t, topic, expertise, tone, context, part, total, previous, custom, style) ==
        TemplateBody(t, custom, FillFor(t, topic, expertise, tone, context, part, total, previous, style))
  {
  }

  /**
   * A custom template written from pieces is filled field by field: reading it back and formatting
   * it is formatting the pieces.
   */
  lemma CustomTemplateSubstitutes(t: Texts, ps: seq<Piece>, f: Fill)
    requires Renderable(ps) && Render(ps) != ""
    ensures TemplateBody(t, Render(ps), f) ==
      match Format(ps, Arguments(f))
      case Success(b) => Success(b)
      case Failure(e) => Failure(TemplateError(e))
  {
    TokenizeRender(ps);
    FormatExplode(ps, Arguments(f));
  }

  /** Without a custom template, a part between 1 and the total always gets a prompt. */
  lemma BuiltInAlwaysBuilds(t: Texts, topic: string, expertise: string, tone: string, context: string, part: int, total: int,
                            previous: seq<string>, style: string)
    requires 1 <= part <= total
    ensures BuildWith(t, topic, expertise, tone, context, part, total, previous, "", style).Success?
  {
  }
}
