/**
 * The two outside services the story generator talks to, as oracles: the generative model, which
 * answers a prompt with text or raises, and the video extractor, which turns a URL into text (an
 * "Error..." text when it cannot). The answer to a call may depend on how many calls came before it
 * and on what is asked; each service keeps the log of what it was asked.
 */
module Services {

  /** `generate_content(prompt).text`: the reply, or the message of the exception raised. */
  datatype Outcome = Ok(text: string) | Fail(message: string)

  /** What both services have been asked so far, in order. */
  datatype Logs = Logs(prompts: seq<string>, urls: seq<string>)

  /** A value computed together with the logs after computing it. */
  datatype After<T> = After(value: T, logs: Logs)

  /** The services' behaviour: the `n`-th call asking `x` gets `answer(n, x)` or `fetch(n, x)`. */
  datatype Oracles = Oracles(answer: (nat, string) -> Outcome, fetch: (nat, string) -> string)

  /** The reply to the next model call, made after the calls in `logs`. */
  function Ask(o: Oracles, logs: Logs, prompt: string): (r: After<Outcome>)
    ensures r.logs == Logs(logs.prompts + [prompt], logs.urls)
    ensures r.value == o.answer(|logs.prompts|, prompt)
  {
    After(o.answer(|logs.prompts|, prompt), Logs(logs.prompts + [prompt], logs.urls))
  }

  /** The text the extractor gives for the next URL, fetched after the calls in `logs`. */
  function Fetch(o: Oracles, logs: Logs, url: string): (r: After<string>)
    ensures r.logs == Logs(logs.prompts, logs.urls + [url])
    ensures r.value == o.fetch(|logs.urls|, url)
  {
    After(o.fetch(|logs.urls|, url), Logs(logs.prompts, logs.urls + [url]))
  }

  /** The generative model client. */
  class ModelClient {
    const answer: (nat, string) -> Outcome
    var log: seq<string>

    constructor(answer: (nat, string) -> Outcome)
      ensures this.answer == answer && log == []
    {
      this.answer := answer;
      log := [];
    }

    /** `model.generate_content(prompt).text`, with a raised exception as `Fail`. */
    method Generate(prompt: string) returns (o: Outcome)
      modifies this
      ensures log == old(log) + [prompt]
      ensures o == answer(|old(log)|, prompt)
    {
      o := answer(|log|, prompt);
      log := log + [prompt];
    }
  }

  /** `get_video_content`: the extractor of a video's title, description and captions. */
  class VideoSource {
    const fetch: (nat, string) -> string
    var log: seq<string>

    constructor(fetch: (nat, string) -> string)
      ensures this.fetch == fetch && log == []
    {
      this.fetch := fetch;
      log := [];
    }

    method Content(url: string) returns (text: string)
      modifies this
      ensures log == old(log) + [url]
      ensures text == fetch(|old(log)|, url)
    {
      text := fetch(|log|, url);
      log := log + [url];
    }
  }

  /** The oracles and the logs of the two services, as the pure specifications see them. */
  function Calls(model: ModelClient, videos: VideoSource): Logs
    reads model, videos
  {
    Logs(model.log, videos.log)
  }

  function OraclesOf(model: ModelClient, videos: VideoSource): Oracles {
    Oracles(model.answer, videos.fetch)
  }
}
