/**
 * `ReferenceProcessor.process_youtube_references`: the texts extracted from the video URLs, less
 * the ones that start with "Error", are each analysed by the model; the successful analyses are
 * combined by one more model call.
 */
module References {
  import opened Text
  import opened Services

  const AnalysisHead: string :=
    "\n" +
    "            Analyze this YouTube video content in detail:\n" +
    "\n" +
    "            "

  const AnalysisTail: string :=
    "\n" +
    "\n" +
    "            Extract and preserve:\n" +
    "            1. Main points and key information\n" +
    "            2. Specific examples and data\n" +
    "            3. Technical details and explanations\n" +
    "            4. Expert opinions and insights\n" +
    "            5. Unique perspectives and approaches\n" +
    "            6. Real-world applications\n" +
    "            7. Case studies and demonstrations\n" +
    "\n" +
    "            Format as a detailed analysis that maintains all specific information.\n" +
    "            "

  const CombinationHead: string :=
    "\n" +
    "        Combine and structure these analyzed contents into a comprehensive reference:\n" +
    "\n" +
    "        "

  const CombinationTail: string :=
    "\n" +
    "\n" +
    "        Create a unified knowledge base that:\n" +
    "        1. Preserves all specific information from each source\n" +
    "        2. Maintains technical accuracy and details\n" +
    "        3. Retains expert insights and unique perspectives\n" +
    "        4. Keeps all examples and case studies\n" +
    "        5. Organizes information logically\n" +
    "        6. Eliminates redundancy while keeping unique points\n" +
    "        7. Maintains the context and depth of each source\n" +
    "\n" +
    "        Format as a detailed reference that can enhance the main topic discussion.\n" +
    "        "

  /**
   * The fixed texts the two kinds of prompt are made of. The specifications take them as a
   * parameter, so what they state holds for any wording; a processor is built with the wording of
   * `reference_processor.py`, `SourceWording`.
   */
  datatype Wording = Wording(analysisHead: string, analysisTail: string, combinationHead: string, combinationTail: string)

  const SourceWording: Wording := Wording(AnalysisHead, AnalysisTail, CombinationHead, CombinationTail)

  /** The separator the analyses are joined with. */
  const Separator: string := "\n\n---\n\n"

  const ErrorPrefix: string := "Error processing references: "

  function AnalysisPrompt(w: Wording, content: string): string {
    w.analysisHead + content + w.analysisTail
  }

  function AnalysisPrompts(w: Wording, contents: seq<string>): (r: seq<string>)
    ensures |r| == |contents|
    ensures forall i :: 0 <= i < |contents| ==> r[i] == AnalysisPrompt(w, contents[i])
  {
    seq(|contents|, i requires 0 <= i < |contents| => AnalysisPrompt(w, contents[i]))
  }

  function CombinationPrompt(w: Wording, analyses: seq<string>): string {
    w.combinationHead + Join(Separator, analyses) + w.combinationTail
  }

  /** A text the extractor produced for a video it could not read. */
  predicate IsError(text: string) {
    StartsWith(text, "Error")
  }

  /** The texts that are not errors, in their order. */
  function Usable(texts: seq<string>): seq<string>
    decreases |texts|
  {
    if texts == [] then []
    else Usable(texts[..|texts| - 1]) + (if IsError(texts[|texts| - 1]) then [] else [texts[|texts| - 1]])
  }

  /** The replies of the calls that succeeded, in their order. */
  function Successes(outcomes: seq<Outcome>): seq<string>
    decreases |outcomes|
  {
    if outcomes == [] then []
    else
      var last := outcomes[|outcomes| - 1];
      Successes(outcomes[..|outcomes| - 1]) + (if last.Ok? then [last.text] else [])
  }

  /** The results of calls made one after another from call `start` on, one per argument in `xs`. */
  function CallResults<T>(f: (nat, string) -> T, start: nat, xs: seq<string>): (r: seq<T>)
    ensures |r| == |xs|
    ensures forall i :: 0 <= i < |xs| ==> r[i] == f(start + i, xs[i])
  {
    seq(|xs|, i requires 0 <= i < |xs| => f(start + i, xs[i]))
  }

  /** The texts kept from the extraction of `urls` after the calls in `logs`. */
  function Kept(o: Oracles, logs: Logs, urls: seq<string>): seq<string> {
    Usable(CallResults(o.fetch, |logs.urls|, urls))
  }

  /** The successful analyses of `kept`, asked after the calls in `logs`. */
  function Analyses(o: Oracles, w: Wording, logs: Logs, kept: seq<string>): seq<string> {
    Successes(CallResults(o.answer, |logs.prompts|, AnalysisPrompts(w, kept)))
  }

  /** `process_youtube_references(urls)` after the calls in `logs`, with the calls it makes. */
  function ProcessReferences(o: Oracles, w: Wording, logs: Logs, urls: seq<string>): After<string> {
    if urls == [] then After("", logs)
    else
      var kept := Kept(o, logs, urls);
      var fetched := Logs(logs.prompts, logs.urls + urls);
      if kept == [] then After("", fetched)
      else
        var analyses := Analyses(o, w, logs, kept);
        var analysed := Logs(logs.prompts + AnalysisPrompts(w, kept), logs.urls + urls);
        if analyses == [] then After("", analysed)
        else
          var combined := Ask(o, analysed, CombinationPrompt(w, analyses));
          After(match combined.value case Ok(t) => t case Fail(m) => ErrorPrefix + m, combined.logs)
  }

  lemma FetchesPrefix(fetch: (nat, string) -> string, start: nat, urls: seq<string>, i: nat)
    requires i < |urls|
    ensures CallResults(fetch, start, urls[..i + 1]) == CallResults(fetch, start, urls[..i]) + [fetch(start + i, urls[i])]
  {
  }

  lemma AnalysisPromptsPrefix(w: Wording, answer: (nat, string) -> Outcome, start: nat, contents: seq<string>, k: nat)
    requires k < |contents|
    ensures AnalysisPrompts(w, contents[..k + 1]) == AnalysisPrompts(w, contents[..k]) + [AnalysisPrompt(w, contents[k])]
    ensures CallResults(answer, start, AnalysisPrompts(w, contents[..k + 1])) ==
      CallResults(answer, start, AnalysisPrompts(w, contents[..k])) + [answer(start + k, AnalysisPrompt(w, contents[k]))]
  {
    assert AnalysisPrompts(w, contents[..k + 1]) == AnalysisPrompts(w, contents[..k]) + [AnalysisPrompt(w, contents[k])];
  }

  lemma UsableAppend(texts: seq<string>, t: string)
    ensures Usable(texts + [t]) == Usable(texts) + (if IsError(t) then [] else [t])
  {
    assert (texts + [t])[..|texts|] == texts;
  }

  lemma SuccessesAppend(outcomes: seq<Outcome>, o: Outcome)
    ensures Successes(outcomes + [o]) == Successes(outcomes) + (if o.Ok? then [o.text] else [])
  {
    assert (outcomes + [o])[..|outcomes|] == outcomes;
  }

  /** Filtering a concatenation filters each part: the order of the kept texts is preserved. */
  lemma {:induction false} UsableConcat(a: seq<string>, b: seq<string>)
    ensures Usable(a + b) == Usable(a) + Usable(b)
    decreases |b|
  {
    if b == [] {
      assert a + b == a;
    } else {
      var b' := b[..|b| - 1];
      var t := b[|b| - 1];
      assert a + b == (a + b') + [t];
      assert b == b' + [t];
      UsableConcat(a, b');
      UsableAppend(a + b', t);
      UsableAppend(b', t);
    }
  }

  /** Exactly the texts that are not errors are kept. */
  lemma {:induction false} UsableMembers(texts: seq<string>)
    ensures forall t :: t in Usable(texts) <==> t in texts && !IsError(t)
    decreases |texts|
  {
    if texts != [] {
      var init := texts[..|texts| - 1];
      UsableMembers(init);
      assert texts == init + [texts[|texts| - 1]];
    }
  }

  /** Exactly the replies of the successful calls are kept, in order. */
  lemma {:induction false} SuccessesConcat(a: seq<Outcome>, b: seq<Outcome>)
    ensures Successes(a + b) == Successes(a) + Successes(b)
    decreases |b|
  {
    if b == [] {
      assert a + b == a;
    } else {
      var b' := b[..|b| - 1];
      var o := b[|b| - 1];
      assert a + b == (a + b') + [o];
      assert b == b' + [o];
      SuccessesConcat(a, b');
      SuccessesAppend(a + b', o);
      SuccessesAppend(b', o);
    }
  }

  /** There are no successful analyses exactly when every call failed. */
  lemma {:induction false} SuccessesEmptyIff(outcomes: seq<Outcome>)
    ensures Successes(outcomes) == [] <==> forall i :: 0 <= i < |outcomes| ==> outcomes[i].Fail?
    decreases |outcomes|
  {
    if outcomes != [] {
      var init := outcomes[..|outcomes| - 1];
      SuccessesEmptyIff(init);
      assert forall i :: 0 <= i < |init| ==> init[i] == outcomes[i];
    }
  }

  /** No URLs: nothing is fetched, nothing is asked, and the result is empty. */
  lemma NoUrls(o: Oracles, w: Wording, logs: Logs)
    ensures ProcessReferences(o, w, logs, []) == After("", logs)
  {
  }

  /**
   * The extractor is asked once per URL, in order; the model once per kept text, and once more to
   * combine exactly when some analysis succeeded.
   */
  lemma CallCounts(o: Oracles, w: Wording, logs: Logs, urls: seq<string>)
    requires urls != []
    ensures ProcessReferences(o, w, logs, urls).logs.urls == logs.urls + urls
    ensures var kept := Kept(o, logs, urls);
      ProcessReferences(o, w, logs, urls).logs.prompts ==
        if kept == [] then logs.prompts
        else if Analyses(o, w, logs, kept) == [] then logs.prompts + AnalysisPrompts(w, kept)
        else logs.prompts + AnalysisPrompts(w, kept) + [CombinationPrompt(w, Analyses(o, w, logs, kept))]
  {
  }

  /**
   * A non-empty result is the combination reply, or the error text of a failed combination; an
   * empty result means nothing was kept or every analysis failed (or the combination replied "").
   */
  lemma ResultCases(o: Oracles, w: Wording, logs: Logs, urls: seq<string>)
    ensures var r := ProcessReferences(o, w, logs, urls);
      var kept := Kept(o, logs, urls);
      (urls == [] || kept == [] || Analyses(o, w, logs, kept) == []) ==> r.value == ""
    ensures var r := ProcessReferences(o, w, logs, urls);
      var kept := Kept(o, logs, urls);
      urls != [] && kept != [] && Analyses(o, w, logs, kept) != [] ==>
        var reply := o.answer(|logs.prompts| + |kept|, CombinationPrompt(w, Analyses(o, w, logs, kept)));
        r.value == match reply case Ok(t) => t case Fail(m) => ErrorPrefix + m
  {
  }

  class ReferenceProcessor {
    const model: ModelClient
    const videos: VideoSource
    const wording: Wording

    constructor(model: ModelClient, videos: VideoSource)
      ensures this.model == model && this.videos == videos && wording == SourceWording
    {
      this.model := model;
      this.videos := videos;
      this.wording := SourceWording;
    }

    method ProcessYoutubeReferences(urls: seq<string>) returns (r: string)
      modifies model, videos
      ensures After(r, Calls(model, videos)) == ProcessReferences(OraclesOf(model, videos), wording, old(Calls(model, videos)), urls)
    {
      if urls == [] {
        return "";
      }
      var combined := FetchUsable(urls);
      if combined == [] {
        return "";
      }
      var analyzed := AnalyzeAll(combined);
      if analyzed == [] {
        return "";
      }
      var outcome := model.Generate(CombinationPrompt(wording, analyzed));
      match outcome
      case Ok(t) => r := t;
      case Fail(m) => r := ErrorPrefix + m;
    }

    /** The first loop: fetch every URL and keep the texts that are not errors. */
    method FetchUsable(urls: seq<string>) returns (combined: seq<string>)
      modifies videos
      ensures videos.log == old(videos.log) + urls
      ensures combined == Usable(CallResults(videos.fetch, |old(videos.log)|, urls))
    {
      ghost var start := videos.log;
      combined := [];
      var i := 0;
      while i < |urls|
        invariant 0 <= i <= |urls|
        invariant videos.log == start + urls[..i]
        invariant combined == Usable(CallResults(videos.fetch, |start|, urls[..i]))
      {
        var content := videos.Content(urls[i]);
        FetchesPrefix(videos.fetch, |start|, urls, i);
        assert urls[..i + 1] == urls[..i] + [urls[i]];
        UsableAppend(CallResults(videos.fetch, |start|, urls[..i]), content);
        if !IsError(content) {
          combined := combined + [content];
        }
        i := i + 1;
      }
      assert urls[..i] == urls;
    }

    /** The second loop: analyse every kept text and keep the analyses that succeeded. */
    method AnalyzeAll(contents: seq<string>) returns (analyzed: seq<string>)
      modifies model
      ensures model.log == old(model.log) + AnalysisPrompts(wording, contents)
      ensures analyzed == Successes(CallResults(model.answer, |old(model.log)|, AnalysisPrompts(wording, contents)))
    {
      ghost var start := model.log;
      analyzed := [];
      var k := 0;
      while k < |contents|
        invariant 0 <= k <= |contents|
        invariant model.log == start + AnalysisPrompts(wording, contents[..k])
        invariant analyzed == Successes(CallResults(model.answer, |start|, AnalysisPrompts(wording, contents[..k])))
      {
        var prompt := AnalysisPrompt(wording, contents[k]);
        var outcome := model.Generate(prompt);
        AnalysisPromptsPrefix(wording, model.answer, |start|, contents, k);
        SuccessesAppend(CallResults(model.answer, |start|, AnalysisPrompts(wording, contents[..k])), outcome);
        if outcome.Ok? {
          analyzed := analyzed + [outcome.text];
        }
        k := k + 1;
      }
      assert contents[..k] == contents;
    }
  }
}
