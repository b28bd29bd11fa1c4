/**
 * `StoryGenerator` and `generate_summary`: a story of `total_parts` parts, each generated from a
 * prompt built with the summaries of the parts before it. Failures do not stop the run: they become
 * the text of the part or of the summary.
 */
module Stories {
  import opened Wrappers
  import opened Text
  import Numerals
  import Config
  import PromptBuilder
  import PromptStore
  import References
  import opened Templates
  import opened Services

  const IntegrationHead: string :=
    "\n" +
    "                    Integrate the following reference material with the topic \""

  const IntegrationMiddle: string :=
    "\":\n" +
    "\n" +
    "                    Reference Material:\n" +
    "                    "

  const IntegrationTail: string :=
    "\n" +
    "\n" +
    "                    Create a comprehensive context that:\n" +
    "                    1. Combines insights from the reference material\n" +
    "                    2. Relates directly to the main topic\n" +
    "                    3. Preserves specific details and examples\n" +
    "                    4. Maintains technical accuracy\n" +
    "                    5. Incorporates expert perspectives\n" +
    "\n" +
    "                    Format as additional context that enhances the main topic discussion.\n" +
    "                    "


  const SummaryHead: string :=
    "\n" +
    "        Create a concise summary (maximum 400 words) of the following content segment.\n" +
    "        Focus on:\n" +
    "        1. Key points and main arguments presented\n" +
    "        2. New concepts or perspectives introduced\n" +
    "        3. Important conclusions or insights\n" +
    "        4. Areas set up for future discussion\n" +
    "        \n" +
    "        Do NOT include:\n" +
    "        - Basic background information\n" +
    "        - Previously covered material\n" +
    "        - General context already established\n" +
    "        \n" +
    "        Content to summarize:\n" +
    "        "

  const SummaryTail: string :=
    "\n" +
    "        \n" +
    "        Provide a focused summary that highlights the unique contributions of this segment and sets up for the next part.\n" +
    "        "

  /**
   * The fixed texts of the prompts the generator writes itself, and those of the reference
   * processor. The specifications take them as a parameter; a generator is built with the
   * wording of `story_generator.py` and `summary_generator.py`, `SourceWording`.
   */
  datatype Wording = Wording(
    integrationHead: string,
    integrationMiddle: string,
    integrationTail: string,
    summaryHead: string,
    summaryTail: string,
    references: References.Wording)

  const SourceWording: Wording :=
    Wording(IntegrationHead, IntegrationMiddle, IntegrationTail, SummaryHead, SummaryTail, References.SourceWording)

  /** The prompt asking the model to fold the reference material into a context for the topic. */
  function IntegrationPrompt(w: Wording, topic: string, material: string): string {
    w.integrationHead + topic + w.integrationMiddle + material + w.integrationTail
  }

  function SummaryPrompt(w: Wording, text: string): string {
    w.summaryHead + text + w.summaryTail
  }

  const ReferencesSeparator: string := "\n\n--- Additional References ---\n"

  const PartSeparator: string := "\n\n"

  const ChunkErrorPrefix: string := "Error generating story part "

  const SummaryErrorPrefix: string := "Summary unavailable: "

  /** The text a part becomes when generating it raised `message`. */
  function ChunkError(part: int, message: string): (r: string)
    ensures StartsWith(r, ChunkErrorPrefix + Numerals.IntToString(part) + ": ")
  {
    ChunkErrorPrefix + Numerals.IntToString(part) + ": " + message
  }

  /** `generate_summary`'s result for the model's outcome. */
  function SummaryText(reply: Outcome): string {
    match reply
    case Ok(t) => t
    case Fail(m) => SummaryErrorPrefix + m
  }

  /** `validate_inputs(expertise, tone)`: the `ValueError` message of the first value not allowed. */
  function ValidateInputs(expertise: string, tone: string): (r: Option<string>)
    ensures r.None? <==> expertise in Config.ExpertiseLevels && tone in Config.ToneStyles
    ensures expertise !in Config.ExpertiseLevels ==> r == Some("Expertise level '" + expertise + "' not supported")
    ensures expertise in Config.ExpertiseLevels && tone !in Config.ToneStyles ==>
      r == Some("Tone style '" + tone + "' not supported")
  {
    if expertise !in Config.ExpertiseLevels then Some("Expertise level '" + expertise + "' not supported")
    else if tone !in Config.ToneStyles then Some("Tone style '" + tone + "' not supported")
    else None
  }

  /** The context with the integrated reference text added. */
  function MergeContext(context: string, integrated: string): (r: string)
    ensures context == "" ==> r == integrated
    ensures context != "" ==> StartsWith(r, context + ReferencesSeparator) && EndsWith(r, integrated)
  {
    if context != "" then context + ReferencesSeparator + integrated else integrated
  }

  /**
   * The prompt builder the generator calls, as a value: the generator's constructor fixes it to
   * `build_story_prompt`, so the specifications below hold for that function in particular.
   */
  type Builder = (string, string, string, string, int, int, seq<string>, string, string) ->
    Result<string, PromptBuilder.PromptError>

  /** `build_story_prompt` over the fixed texts `t`, as a builder; the generator uses `BuilderOf(PromptBuilder.Source)`. */
  function BuilderOf(t: PromptBuilder.Texts): Builder {
    (topic: string, expertise: string, tone: string, context: string, part: int, total: int, previous: seq<string>,
     custom: string, style: string) =>
      PromptBuilder.BuildWith(t, topic, expertise, tone, context, part, total, previous, custom, style)
  }

  /** The decoded arguments of `generate_complete_story`. */
  datatype Request = Request(
    topic: string,
    expertise: string,
    tone: string,
    context: string,
    urls: seq<string>,
    total: int,
    promptId: string,
    style: string)

  /** The reference step of a part: the context its prompt is built with, after the calls it makes. */
  function WithReferences(o: Oracles, w: Wording, logs: Logs, topic: string, context: string, urls: seq<string>): After<string> {
    if urls == [] then After(context, logs)
    else
      var refs := References.ProcessReferences(o, w.references, logs, urls);
      if refs.value == "" || References.IsError(refs.value) then After(context, refs.logs)
      else
        var integrated := Ask(o, refs.logs, IntegrationPrompt(w, topic, refs.value));
        After(match integrated.value case Ok(t) => MergeContext(context, t) case Fail(_) => context, integrated.logs)
  }

  /** The custom template for `promptId`: the stored one when there is an entry, else "" for the built-in body. */
  function ChooseTemplate(store: map<string, PromptStore.Entry>, promptId: string): string {
    if promptId in store then store[promptId].template else ""
  }

  /** `generate_story_chunk` for part `part`, built with the summaries `previous`. */
  function ChunkRun(o: Oracles, w: Wording, build: Builder, store: map<string, PromptStore.Entry>, logs: Logs, q: Request,
                    part: int, previous: seq<string>): After<string>
  {
    match ValidateInputs(q.expertise, q.tone)
    case Some(msg) => After(ChunkError(part, msg), logs)
    case None =>
      var ctx := WithReferences(o, w, logs, q.topic, q.context, q.urls);
      PartFromContext(o, w, build, ctx, q, ChooseTemplate(store, q.promptId), part, previous)
  }

  /** The rest of a part once its context is known: build the prompt, then ask the model. */
  function PartFromContext(o: Oracles, w: Wording, build: Builder, ctx: After<string>, q: Request, template: string, part: int,
                           previous: seq<string>): After<string>
  {
    match build(q.topic, q.expertise, q.tone, ctx.value, part, q.total, previous, template, q.style)
    case Failure(e) => After(ChunkError(part, PromptBuilder.ErrorMessage(e)), ctx.logs)
    case Success(prompt) =>
      var reply := Ask(o, ctx.logs, prompt);
      After(match reply.value case Ok(t) => t case Fail(m) => ChunkError(part, m), reply.logs)
  }

  /** `generate_summary(text, model)` */
  function SummaryRun(o: Oracles, w: Wording, logs: Logs, text: string): After<string> {
    var reply := Ask(o, logs, SummaryPrompt(w, text));
    After(SummaryText(reply.value), reply.logs)
  }

  /** The parts and the summaries accumulated by the part loop. */
  datatype Progress = Progress(parts: seq<string>, summaries: seq<string>)

  /** One part of the loop: the text of part `part`, built with the summaries `previous`, after the calls in `logs`. */
  type PartStep = (Logs, int, seq<string>) -> After<string>

  /** One summary of the loop: the summary of a part's text, after the calls in `logs`. */
  type SummaryStep = (Logs, string) -> After<string>

  /**
   * The first `k` iterations of `for part_number in range(1, total + 1)`: each generates its part
   * with the summaries so far, and summarises it unless it is the last part.
   */
  function Loop(chunk: PartStep, summary: SummaryStep, logs: Logs, total: int, k: nat): After<Progress>
    decreases k
  {
    if k == 0 then After(Progress([], []), logs)
    else
      var before := Loop(chunk, summary, logs, total, k - 1);
      Next(chunk, summary, total, k, before.value, before.logs)
  }

  /** Iteration `part` of the loop, from the progress `p` reached after the calls in `logs`. */
  function Next(chunk: PartStep, summary: SummaryStep, total: int, part: int, p: Progress, logs: Logs): After<Progress> {
    var c := chunk(logs, part, p.summaries);
    if part < total then
      var s := summary(c.logs, c.value);
      After(Progress(p.parts + [c.value], p.summaries + [s.value]), s.logs)
    else
      After(Progress(p.parts + [c.value], p.summaries), c.logs)
  }

  /** `generate_story_chunk` as the step of the loop. */
  function PartOf(o: Oracles, w: Wording, build: Builder, store: map<string, PromptStore.Entry>, q: Request): PartStep {
    (logs: Logs, part: int, previous: seq<string>) => ChunkRun(o, w, build, store, logs, q, part, previous)
  }

  /** `generate_summary` as the step of the loop. */
  function SummaryOf(o: Oracles, w: Wording): SummaryStep {
    (logs: Logs, text: string) => SummaryRun(o, w, logs, text)
  }

  /** The first `k` iterations of the part loop of `generate_complete_story`. */
  function RunUpTo(o: Oracles, w: Wording, build: Builder, store: map<string, PromptStore.Entry>, logs: Logs, q: Request, k: nat): After<Progress> {
    Loop(PartOf(o, w, build, store, q), SummaryOf(o, w), logs, q.total, k)
  }

  /** The number of iterations of `range(1, n + 1)`. */
  function Count(n: int): nat {
    if n > 0 then n else 0
  }

  /** `generate_complete_story`, after the calls in `logs`. */
  function CompleteStory(o: Oracles, w: Wording, build: Builder, store: map<string, PromptStore.Entry>, logs: Logs, q: Request): After<string> {
    var run := RunUpTo(o, w, build, store, logs, q, Count(q.total));
    After(Join(PartSeparator, run.value.parts), run.logs)
  }

  /** `k` copies of `urls`, one after another. */
  function Repeat(urls: seq<string>, k: nat): seq<string> {
    if k == 0 then [] else Repeat(urls, k - 1) + urls
  }

  /** After `k` iterations there are `k` parts, and a summary for each of them that is not the last part. */
  lemma {:induction false} LoopShape(chunk: PartStep, summary: SummaryStep, logs: Logs, total: int, k: nat)
    requires k <= Count(total)
    ensures |Loop(chunk, summary, logs, total, k).value.parts| == k
    ensures |Loop(chunk, summary, logs, total, k).value.summaries| == if k == 0 || k < total then k else k - 1
    decreases k
  {
    if k > 0 {
      LoopShape(chunk, summary, logs, total, k - 1);
    }
  }

  /** Later iterations only append: the parts and summaries of `j` iterations begin those of `k`. */
  lemma {:induction false} LoopPrefix(chunk: PartStep, summary: SummaryStep, logs: Logs, total: int, j: nat, k: nat)
    requires j <= k
    ensures Loop(chunk, summary, logs, total, j).value.parts <= Loop(chunk, summary, logs, total, k).value.parts
    ensures Loop(chunk, summary, logs, total, j).value.summaries <= Loop(chunk, summary, logs, total, k).value.summaries
    decreases k - j
  {
    if j < k {
      LoopPrefix(chunk, summary, logs, total, j, k - 1);
    }
  }

  /**
   * The story has `total_parts` parts (none when it is not positive) and `total_parts - 1`
   * summaries, and it is the parts joined by a blank line.
   */
  lemma StoryShape(o: Oracles, w: Wording, build: Builder, store: map<string, PromptStore.Entry>, logs: Logs, q: Request)
    ensures var run := RunUpTo(o, w, build, store, logs, q, Count(q.total));
      && |run.value.parts| == Count(q.total)
      && |run.value.summaries| == Count(q.total - 1)
      && CompleteStory(o, w, build, store, logs, q).value == Join(PartSeparator, run.value.parts)
  {
    LoopShape(PartOf(o, w, build, store, q), SummaryOf(o, w), logs, q.total, Count(q.total));
  }

  /** A story of no parts is empty and makes no call. */
  lemma NoParts(o: Oracles, w: Wording, build: Builder, store: map<string, PromptStore.Entry>, logs: Logs, q: Request)
    requires q.total <= 0
    ensures CompleteStory(o, w, build, store, logs, q) == After("", logs)
  {
  }

  /** Part `p` comes from the step run after the `p - 1` parts before it, with exactly their `p - 1` summaries. */
  lemma LoopPartBuilt(chunk: PartStep, summary: SummaryStep, logs: Logs, total: int, p: nat)
    requires 1 <= p <= Count(total)
    ensures var before := Loop(chunk, summary, logs, total, p - 1);
      var run := Loop(chunk, summary, logs, total, Count(total));
      && |before.value.summaries| == p - 1
      && before.value.summaries <= run.value.summaries
      && |run.value.parts| == Count(total)
      && run.value.parts[p - 1] == chunk(before.logs, p, before.value.summaries).value
  {
    LoopShape(chunk, summary, logs, total, p - 1);
    LoopShape(chunk, summary, logs, total, p);
    LoopShape(chunk, summary, logs, total, Count(total));
    LoopPrefix(chunk, summary, logs, total, p - 1, Count(total));
    LoopPrefix(chunk, summary, logs, total, p, Count(total));
  }

  /** Part `p` is generated after the `p - 1` parts before it, with exactly their `p - 1` summaries. */
  lemma PartBuiltWithPriorSummaries(o: Oracles, w: Wording, build: Builder, store: map<string, PromptStore.Entry>, logs: Logs, q: Request, p: nat)
    requires 1 <= p <= Count(q.total)
    ensures var before := RunUpTo(o, w, build, store, logs, q, p - 1);
      var run := RunUpTo(o, w, build, store, logs, q, Count(q.total));
      && |before.value.summaries| == p - 1
      && before.value.summaries <= run.value.summaries
      && |run.value.parts| == Count(q.total)
      && run.value.parts[p - 1] == ChunkRun(o, w, build, store, before.logs, q, p, before.value.summaries).value
  {
    LoopPartBuilt(PartOf(o, w, build, store, q), SummaryOf(o, w), logs, q.total, p);
  }

  /** Summary `i` is the summary step run on part `i + 1`, after some calls. */
  lemma LoopSummaryOf(chunk: PartStep, summary: SummaryStep, logs: Logs, total: int, i: nat)
    requires i < |Loop(chunk, summary, logs, total, Count(total)).value.summaries|
    ensures var run := Loop(chunk, summary, logs, total, Count(total));
      i < |run.value.parts| && exists l: Logs :: run.value.summaries[i] == summary(l, run.value.parts[i]).value
  {
    var run := Loop(chunk, summary, logs, total, Count(total));
    LoopShape(chunk, summary, logs, total, Count(total));
    LoopShape(chunk, summary, logs, total, i);
    LoopShape(chunk, summary, logs, total, i + 1);
    LoopPrefix(chunk, summary, logs, total, i + 1, Count(total));
    var step := Loop(chunk, summary, logs, total, i + 1);
    var before := Loop(chunk, summary, logs, total, i);
    var c := chunk(before.logs, i + 1, before.value.summaries);
    assert i + 1 < total;
    assert step.value.summaries[i] == summary(c.logs, c.value).value;
    assert run.value.summaries[i] == step.value.summaries[i];
    assert run.value.parts[i] == step.value.parts[i];
  }

  /** Summary `i` is the model's summary of part `i + 1`, or "Summary unavailable: ..." when that call failed. */
  lemma SummaryOfEachPart(o: Oracles, w: Wording, build: Builder, store: map<string, PromptStore.Entry>, logs: Logs, q: Request, i: nat)
    requires i < |RunUpTo(o, w, build, store, logs, q, Count(q.total)).value.summaries|
    ensures var run := RunUpTo(o, w, build, store, logs, q, Count(q.total));
      i < |run.value.parts| &&
      exists n: nat :: run.value.summaries[i] == SummaryText(o.answer(n, SummaryPrompt(w, run.value.parts[i])))
  {
    var run := RunUpTo(o, w, build, store, logs, q, Count(q.total));
    LoopSummaryOf(PartOf(o, w, build, store, q), SummaryOf(o, w), logs, q.total, i);
    var l: Logs :| run.value.summaries[i] == SummaryOf(o, w)(l, run.value.parts[i]).value;
    assert run.value.summaries[i] == SummaryText(o.answer(|l.prompts|, SummaryPrompt(w, run.value.parts[i])));
  }

  /**
   * When every part is `error(part)` and makes no call, and every summary is one model call, the
   * parts are those errors, the extractor is never called, and the model is called once per summary.
   */
  lemma {:induction false} LoopOfErrors(chunk: PartStep, summary: SummaryStep, logs: Logs, total: int, k: nat,
                                        error: int -> string)
    requires forall l: Logs, p: int, prev: seq<string> :: chunk(l, p, prev) == After(error(p), l)
    requires forall l: Logs, t: string :: |summary(l, t).logs.prompts| == |l.prompts| + 1 && summary(l, t).logs.urls == l.urls
    requires k <= Count(total)
    ensures var run := Loop(chunk, summary, logs, total, k);
      && |run.value.parts| == k
      && (forall i :: 0 <= i < k ==> run.value.parts[i] == error(i + 1))
      && run.logs.urls == logs.urls
      && |run.logs.prompts| == |logs.prompts| + |run.value.summaries|
    decreases k
  {
    if k > 0 {
      LoopOfErrors(chunk, summary, logs, total, k - 1, error);
    }
  }

  /**
   * With an expertise or tone that is not allowed, every part is the validation error, the
   * extractor is never called, and the only model calls are the summaries.
   */
  lemma InvalidInputsRun(o: Oracles, w: Wording, build: Builder, store: map<string, PromptStore.Entry>, logs: Logs, q: Request, k: nat)
    requires ValidateInputs(q.expertise, q.tone).Some?
    requires k <= Count(q.total)
    ensures var run := RunUpTo(o, w, build, store, logs, q, k);
      && |run.value.parts| == k
      && (forall i :: 0 <= i < k ==> run.value.parts[i] == ChunkError(i + 1, ValidateInputs(q.expertise, q.tone).value))
      && run.logs.urls == logs.urls
      && |run.logs.prompts| == |logs.prompts| + |run.value.summaries|
  {
    var msg := ValidateInputs(q.expertise, q.tone).value;
    var error := (p: int) => ChunkError(p, msg);
    var chunk := PartOf(o, w, build, store, q);
    var summary := SummaryOf(o, w);
    forall l: Logs, p: int, prev: seq<string> ensures chunk(l, p, prev) == After(error(p), l) {
    }
    forall l: Logs, t: string ensures |summary(l, t).logs.prompts| == |l.prompts| + 1 && summary(l, t).logs.urls == l.urls {
    }
    LoopOfErrors(chunk, summary, logs, q.total, k, error);
  }

  /**
   * When every part asks the extractor for `urls` and every summary asks it nothing, `k`
   * iterations ask it for `urls` `k` times, in order.
   */
  lemma {:induction false} LoopUrls(chunk: PartStep, summary: SummaryStep, logs: Logs, total: int, k: nat, urls: seq<string>)
    requires forall l: Logs, p: int, prev: seq<string> :: chunk(l, p, prev).logs.urls == l.urls + urls
    requires forall l: Logs, t: string :: summary(l, t).logs.urls == l.urls
    ensures Loop(chunk, summary, logs, total, k).logs.urls == logs.urls + Repeat(urls, k)
    decreases k
  {
    if k > 0 {
      LoopUrls(chunk, summary, logs, total, k - 1, urls);
      assert logs.urls + Repeat(urls, k - 1) + urls == logs.urls + Repeat(urls, k);
    }
  }

  /** With allowed inputs the extractor is asked for every URL once per part, in order. */
  lemma ValidInputsFetchPerPart(o: Oracles, w: Wording, build: Builder, store: map<string, PromptStore.Entry>, logs: Logs, q: Request, k: nat)
    requires ValidateInputs(q.expertise, q.tone).None?
    ensures RunUpTo(o, w, build, store, logs, q, k).logs.urls == logs.urls + Repeat(q.urls, k)
  {
    var chunk := PartOf(o, w, build, store, q);
    forall l: Logs, p: int, prev: seq<string> ensures chunk(l, p, prev).logs.urls == l.urls + q.urls {
      PartFetches(o, w, build, store, l, q, p, prev);
    }
    LoopUrls(chunk, SummaryOf(o, w), logs, q.total, k, q.urls);
  }

  /** With allowed inputs, one part asks the extractor for each URL once, in order, and nothing else. */
  lemma PartFetches(o: Oracles, w: Wording, build: Builder, store: map<string, PromptStore.Entry>, logs: Logs, q: Request,
                    part: int, previous: seq<string>)
    requires ValidateInputs(q.expertise, q.tone).None?
    ensures ChunkRun(o, w, build, store, logs, q, part, previous).logs.urls == logs.urls + q.urls
  {
    if q.urls != [] {
      References.CallCounts(o, w.references, logs, q.urls);
    }
  }

  /**
   * The context changes exactly when the references gave a usable text and integrating it
   * succeeded; it then becomes the merge of the old context and the integrated text.
   */
  lemma ContextChangesOnlyOnIntegration(o: Oracles, w: Wording, logs: Logs, topic: string, context: string, urls: seq<string>)
    ensures urls == [] ==> WithReferences(o, w, logs, topic, context, urls) == After(context, logs)
    ensures WithReferences(o, w, logs, topic, context, urls).value != context ==>
      var refs := References.ProcessReferences(o, w.references, logs, urls);
      var reply := o.answer(|refs.logs.prompts|, IntegrationPrompt(w, topic, refs.value));
      && urls != [] && refs.value != "" && !References.IsError(refs.value)
      && reply.Ok? && WithReferences(o, w, logs, topic, context, urls).value == MergeContext(context, reply.text)
    ensures
      var refs := References.ProcessReferences(o, w.references, logs, urls);
      var reply := o.answer(|refs.logs.prompts|, IntegrationPrompt(w, topic, refs.value));
      urls != [] && refs.value != "" && !References.IsError(refs.value) && reply.Ok? ==>
        WithReferences(o, w, logs, topic, context, urls) ==
          After(MergeContext(context, reply.text),
                Logs(refs.logs.prompts + [IntegrationPrompt(w, topic, refs.value)], refs.logs.urls))
    ensures
      var refs := References.ProcessReferences(o, w.references, logs, urls);
      var reply := o.answer(|refs.logs.prompts|, IntegrationPrompt(w, topic, refs.value));
      urls != [] && refs.value != "" && !References.IsError(refs.value) && reply.Fail? ==>
        WithReferences(o, w, logs, topic, context, urls).value == context
  {
  }

  /** A part is either a reply of the model or an "Error generating story part N: ..." text. */
  lemma ChunkIsReplyOrError(o: Oracles, w: Wording, build: Builder, store: map<string, PromptStore.Entry>, logs: Logs, q: Request, part: int,
                            previous: seq<string>)
    ensures var v := ChunkRun(o, w, build, store, logs, q, part, previous).value;
      StartsWith(v, ChunkErrorPrefix + Numerals.IntToString(part) + ": ") ||
      exists n: nat, prompt: string :: o.answer(n, prompt) == Ok(v)
  {
  }

  /**
   * The body of the prompt a part asks for, with allowed inputs and `build_story_prompt` over any
   * fixed texts `t`: the
   * built-in body filled with the part's values when the id has no stored entry or its template is
   * empty, else the stored template formatted with them. A template that cannot be formatted makes
   * the part "Error generating story part N: " followed by the error, with no model call.
   */
  lemma TemplateChoice(o: Oracles, w: Wording, t: PromptBuilder.Texts, store: map<string, PromptStore.Entry>, logs: Logs,
                       q: Request, part: int, previous: seq<string>)
    requires ValidateInputs(q.expertise, q.tone).None?
    ensures var ctx := WithReferences(o, w, logs, q.topic, q.context, q.urls);
      var f := PromptBuilder.FillFor(t, q.topic, q.expertise, q.tone, ctx.value, part, q.total, previous, q.style);
      var run := ChunkRun(o, w, BuilderOf(t), store, logs, q, part, previous);
      var body: Result<string, FormatError> :=
        if q.promptId !in store || store[q.promptId].template == "" then Success(t.builtIn(f))
        else Format(Tokenize(store[q.promptId].template), PromptBuilder.Arguments(f));
      && (body.Failure? ==> run == After(ChunkError(part, Message(body.error)), ctx.logs))
      && (body.Success? && PromptBuilder.PositionOf(part, q.total).Success? ==>
            && |run.logs.prompts| == |ctx.logs.prompts| + 1
            && run.logs.prompts[..|ctx.logs.prompts|] == ctx.logs.prompts
            && run.logs.urls == ctx.logs.urls
            && StartsWith(run.logs.prompts[|ctx.logs.prompts|], body.value))
  {
  }

  /**
   * With the default prompt stored under 'default', a part between 1 and the total always gets a
   * prompt, whatever the builder's fixed texts are.
   */
  lemma DefaultPromptBuilds(t: PromptBuilder.Texts, store: map<string, PromptStore.Entry>, q: Request, context: string,
                            part: int, previous: seq<string>)
    requires PromptStore.DefaultId in store && store[PromptStore.DefaultId].template == PromptStore.DefaultTemplate
    requires q.promptId == PromptStore.DefaultId
    requires 1 <= part <= q.total
    ensures PromptBuilder.BuildWith(t, q.topic, q.expertise, q.tone, context, part, q.total, previous,
      ChooseTemplate(store, q.promptId), q.style).Success?
  {
    var f := PromptBuilder.FillFor(t, q.topic, q.expertise, q.tone, context, part, q.total, previous, q.style);
    PromptStore.DefaultTemplateFills(PromptBuilder.Arguments(f));
  }

  /** `generate_summary(text, model)`: one model call; a failure becomes "Summary unavailable: ...". */
  method GenerateSummary(w: Wording, text: string, model: ModelClient) returns (summary: string)
    modifies model
    ensures model.log == old(model.log) + [SummaryPrompt(w, text)]
    ensures summary == SummaryText(model.answer(|old(model.log)|, SummaryPrompt(w, text)))
  {
    var reply := model.Generate(SummaryPrompt(w, text));
    match reply
    case Ok(t) => summary := t;
    case Fail(m) => summary := SummaryErrorPrefix + m;
  }

  class StoryGenerator {
    const modelName: string
    const apiKey: string
    const model: ModelClient
    const videos: VideoSource
    const references: References.ReferenceProcessor
    const prompts: PromptStore.PromptManager
    const build: Builder
    const wording: Wording

    /** The reference processor shares the generator's model, extractor and wording. */
    predicate Valid() {
      references.model == model && references.videos == videos && references.wording == wording.references
    }

    constructor(modelName: string, apiKey: string, model: ModelClient, videos: VideoSource,
                prompts: PromptStore.PromptManager)
      ensures Valid()
      ensures this.modelName == modelName && this.apiKey == apiKey
      ensures this.model == model && this.videos == videos && this.prompts == prompts
      ensures this.build == BuilderOf(PromptBuilder.Source) && wording == SourceWording
    {
      this.modelName := modelName;
      this.apiKey := apiKey;
      this.model := model;
      this.videos := videos;
      this.references := new References.ReferenceProcessor(model, videos);
      this.prompts := prompts;
      this.build := BuilderOf(PromptBuilder.Source);
      this.wording := SourceWording;
    }

    /**
     * `StoryGenerator(model_name, api_key)`: the model is checked, then `init_gemini` runs, then
     * the prompt store is opened, finding `existing` on disk.
     */
    static method Create(modelName: string, apiKey: string, envKey: string, answer: (nat, string) -> Outcome,
                         fetch: (nat, string) -> string, existing: PromptStore.StoreFile)
      returns (r: Result<StoryGenerator, string>)
      ensures r.Failure? <==> Config.InitGemini(modelName, apiKey, envKey).Failure?
      ensures r.Failure? ==> r.error == Config.InitGemini(modelName, apiKey, envKey).error
      ensures r.Success? ==> var g := r.value;
        && fresh(g) && fresh(g.model) && fresh(g.videos) && fresh(g.prompts)
        && g.Valid() && g.modelName == modelName && g.apiKey == apiKey && g.build == BuilderOf(PromptBuilder.Source) && g.wording == SourceWording
        && g.model.answer == answer && g.model.log == [] && g.videos.fetch == fetch && g.videos.log == []
        && g.prompts.defaults == PromptStore.DefaultPrompts && g.prompts.file == PromptStore.Seeded(g.prompts.defaults, existing)
    {
      if modelName !in Config.AvailableModels {
        return Failure("Model " + modelName + " not supported");
      }
      var init := Config.InitGemini(modelName, apiKey, envKey);
      if init.Failure? {
        return Failure(init.error);
      }
      var model := new ModelClient(answer);
      var videos := new VideoSource(fetch);
      var prompts := new PromptStore.PromptManager(existing);
      var g := new StoryGenerator(modelName, apiKey, model, videos, prompts);
      return Success(g);
    }

    /** The prompts the store holds; no call of the generator changes them. */
    function Store(): map<string, PromptStore.Entry>
      reads this, prompts
    {
      prompts.Prompts()
    }

    /** The reference step of `generate_story_chunk`: the context the part's prompt is built with. */
    method GatherContext(q: Request) returns (context: string)
      requires Valid()
      modifies model, videos
      ensures After(context, Calls(model, videos)) ==
        WithReferences(OraclesOf(model, videos), wording, old(Calls(model, videos)), q.topic, q.context, q.urls)
    {
      context := q.context;
      if q.urls != [] {
        var material := references.ProcessYoutubeReferences(q.urls);
        if material != "" && !References.IsError(material) {
          var integrated := model.Generate(IntegrationPrompt(wording, q.topic, material));
          if integrated.Ok? {
            context := MergeContext(context, integrated.text);
          }
        }
      }
    }

    method GenerateStoryChunk(q: Request, part: int, previous: seq<string>) returns (text: string)
      requires Valid()
      modifies model, videos
      ensures After(text, Calls(model, videos)) ==
        ChunkRun(OraclesOf(model, videos), wording, build, Store(), old(Calls(model, videos)), q, part, previous)
    {
      var invalid := ValidateInputs(q.expertise, q.tone);
      if invalid.Some? {
        return ChunkError(part, invalid.value);
      }
      var context := GatherContext(q);
      var custom := prompts.GetPrompt(q.promptId);
      var template := if custom.Some? then custom.value.template else "";
      var prompt := build(q.topic, q.expertise, q.tone, context, part, q.total, previous, template, q.style);
      if prompt.Failure? {
        return ChunkError(part, PromptBuilder.ErrorMessage(prompt.error));
      }
      var reply := model.Generate(prompt.value);
      match reply
      case Ok(t) => text := t;
      case Fail(m) => text := ChunkError(part, m);
    }

    /** One iteration of the part loop: part `part`, then its summary unless it is the last part. */
    method NextPart(q: Request, part: int, parts: seq<string>, summaries: seq<string>)
      returns (parts': seq<string>, summaries': seq<string>)
      requires Valid()
      modifies model, videos
      ensures Store() == old(Store())
      ensures After(Progress(parts', summaries'), Calls(model, videos)) ==
        Next(PartOf(OraclesOf(model, videos), wording, build, Store(), q), SummaryOf(OraclesOf(model, videos), wording),
             q.total, part, Progress(parts, summaries), old(Calls(model, videos)))
    {
      var chunk := GenerateStoryChunk(q, part, summaries);
      parts' := parts + [chunk];
      summaries' := summaries;
      if part < q.total {
        var summary := GenerateSummary(wording, chunk, model);
        summaries' := summaries + [summary];
      }
    }

    method GenerateCompleteStory(q: Request) returns (story: string)
      requires Valid()
      modifies model, videos
      ensures After(story, Calls(model, videos)) ==
        CompleteStory(OraclesOf(model, videos), wording, build, Store(), old(Calls(model, videos)), q)
    {
      ghost var start := Calls(model, videos);
      ghost var chunkStep := PartOf(OraclesOf(model, videos), wording, build, Store(), q);
      ghost var summaryStep := SummaryOf(OraclesOf(model, videos), wording);
      var parts: seq<string> := [];
      var summaries: seq<string> := [];
      var part := 1;
      while part <= q.total
        invariant 1 <= part && part - 1 <= Count(q.total)
        invariant Loop(chunkStep, summaryStep, start, q.total, part - 1) == After(Progress(parts, summaries), Calls(model, videos))
      {
        assert Loop(chunkStep, summaryStep, start, q.total, part) ==
          Next(chunkStep, summaryStep, q.total, part, Progress(parts, summaries), Calls(model, videos));
        parts, summaries := NextPart(q, part, parts, summaries);
        assert chunkStep == PartOf(OraclesOf(model, videos), wording, build, Store(), q);
        part := part + 1;
      }
      assert part - 1 == Count(q.total);
      assert chunkStep == PartOf(OraclesOf(model, videos), wording, build, Store(), q);
      story := Join(PartSeparator, parts);
    }
  }
}
