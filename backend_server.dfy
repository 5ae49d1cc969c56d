/*
 * The image-analysis relay: the `/analyze`, `/get_result` and `/health`
 * handlers around one process-wide result slot.
 *
 * The upstream vision model is an oracle: its outcome for a request is a
 * parameter. Python's `int()` applied to the `X-Prompt-Type` header is an
 * abstract parser, also a parameter. The clock is a caller-supplied
 * timestamp.
 */
module BackendServer {

  newtype byte = x: int | 0 <= x < 256

  datatype Option<+T> = None | Some(value: T)

  /** What `int(header)` does with a header value: an integer or a ValueError. */
  datatype IntParse = Int(value: int) | ValueError(message: string)

  /** What the upstream call gives back: text, a `None` content, or an exception. */
  datatype Upstream = Ok(text: string) | NoContent | Err(message: string)

  /** An inbound `/analyze` request: the optional `X-Prompt-Type` header and the raw body. */
  datatype Request = Request(promptType: Option<string>, data: seq<byte>)

  /** The chat-completion request sent upstream (base64 and the data URI are not modelled). */
  datatype VisionCall = VisionCall(model: string, prompt: string, image: seq<byte>, maxTokens: nat)

  /** The single stored record, `latest_result`; `None` stands for Python's `None`. */
  datatype Record = Record(response: Option<string>, timestamp: Option<string>)

  /** The JSON bodies the three endpoints produce. */
  datatype Body =
    | Analysis(success: bool, response: string, fullResponse: string)
    | Failure(error: string)
    | Latest(latestResponse: Option<string>, timestamp: Option<string>)
    | Status(status: string)

  datatype Reply = Reply(code: int, body: Body)

  /** The outcome of one `/analyze` request: its reply, the new store, the upstream request if any. */
  datatype Exchange = Exchange(reply: Reply, store: Record, call: Option<VisionCall>)

  /** The wall-clock time `'%Y-%m-%d %H:%M:%S'` yields: never empty. */
  type Timestamp = s: string | |s| > 0 witness "0"

  const SolvePrompt: string :=
    "Solve this problem step by step. If it's a math problem, provide the solution. If it's text, transcribe it clearly."
  const ObjectsPrompt: string :=
    "Identify and list all the objects visible in this image. Be specific and concise."
  const Prompts: map<int, string> := map[1 := SolvePrompt, 2 := ObjectsPrompt]

  const VisionModel: string := "meta-llama/llama-4-scout-17b-16e-instruct"
  const MaxTokens: nat := 500
  const DisplayLimit: nat := 200

  const ErrorPrefix: string := "Error processing request: "
  const NoImageMessage: string := "No image data provided"
  /** `str()` of the TypeError that `len(None)` raises. */
  const NoneLenMessage: string := "object of type 'NoneType' has no len()"
  const HealthStatus: string := "Server is running"
  const SentinelText: string := "No analysis available yet. Waiting for ESP32-CAM to send an image."

  /** The store before any write. */
  const Sentinel: Record := Record(Some(SentinelText), None)

  /** The prompt for a selector: the dictionary lookup with entry 1 as the default. */
  function PromptFor(selector: int): (p: string)
    ensures selector == 2 ==> p == ObjectsPrompt
    ensures selector != 2 ==> p == SolvePrompt
    ensures p in Prompts.Values
  {
    if selector in Prompts then Prompts[selector] else Prompts[1]
  }

  /** The text shown on the camera's display: at most the first 200 characters. */
  function Truncate(text: string): (r: string)
    ensures |r| <= DisplayLimit
    ensures r <= text
    ensures |text| <= DisplayLimit ==> r == text
    ensures |text| > DisplayLimit ==> |r| == DisplayLimit
  {
    if |text| > DisplayLimit then text[..DisplayLimit] else text
  }

  /** The catch-all error envelope: 500 and the exception's text behind a fixed prefix. */
  function ErrorReply(message: string): (r: Reply)
    ensures r.code == 500 && r.body.Failure?
    ensures ErrorPrefix <= r.body.error
    ensures r.body.error[|ErrorPrefix|..] == message
  {
    Reply(500, Failure(ErrorPrefix + message))
  }

  /** The prompt selector: 1 when the header is absent, otherwise `int()` of its text. */
  function SelectorOf(promptType: Option<string>, parse: string -> IntParse): (s: IntParse)
    ensures promptType.None? ==> s == Int(1)
    ensures promptType.Some? ==> s == parse(promptType.value)
  {
    match promptType
    case None => Int(1)
    case Some(h) => parse(h)
  }

  /**
   * Reference definition of one `/analyze` request against the store it finds:
   * selector first, then the empty-body check, then the upstream call, then the
   * store write, then the length that fails on `None` content.
   */
  function Analyze(store: Record, req: Request, parse: string -> IntParse, upstream: Upstream, now: Timestamp): (x: Exchange)
    ensures x.reply.code in {200, 400, 500}
    ensures x.reply.code == 200 <==> x.reply.body.Analysis?
    ensures x.call.None? ==> x.store == store
    ensures x.store != store ==> x.store.timestamp == Some(now)
  {
    var selector := SelectorOf(req.promptType, parse);
    if selector.ValueError? then
      Exchange(ErrorReply(selector.message), store, None)
    else if |req.data| == 0 then
      Exchange(Reply(400, Failure(NoImageMessage)), store, None)
    else
      var call := Some(VisionCall(VisionModel, PromptFor(selector.value), req.data, MaxTokens));
      match upstream
      case Err(m) => Exchange(ErrorReply(m), store, call)
      case NoContent => Exchange(ErrorReply(NoneLenMessage), Record(None, Some(now)), call)
      case Ok(t) => Exchange(Reply(200, Analysis(true, Truncate(t), t)), Record(Some(t), Some(now)), call)
  }

  /** The `/get_result` reply for a store. */
  function ResultReply(store: Record): (r: Reply)
    ensures r.code == 200 && r.body.Latest?
    ensures r.body.latestResponse == store.response && r.body.timestamp == store.timestamp
  {
    Reply(200, Latest(store.response, store.timestamp))
  }

  /** The `/health` reply; it takes no state, so no state can change it. */
  function HealthCheck(): (r: Reply)
    ensures r.code == 200 && r.body == Status("Server is running")
  {
    Reply(200, Status(HealthStatus))
  }

  /** Property: a parsed selector and an empty body give 400; no call, no write. */
  lemma EmptyBodyRejected(store: Record, req: Request, parse: string -> IntParse, upstream: Upstream, now: Timestamp)
    requires SelectorOf(req.promptType, parse).Int?
    requires |req.data| == 0
    ensures var x := Analyze(store, req, parse, upstream, now);
      x.reply == Reply(400, Failure("No image data provided")) && x.call == None && x.store == store
  {
  }

  /** Property: a present header that `int()` rejects gives 500 whatever the body; no call, no write. */
  lemma MalformedSelectorFails(store: Record, req: Request, parse: string -> IntParse, upstream: Upstream, now: Timestamp)
    requires req.promptType.Some? && parse(req.promptType.value).ValueError?
    ensures var x := Analyze(store, req, parse, upstream, now);
      x.reply == Reply(500, Failure("Error processing request: " + parse(req.promptType.value).message))
      && x.call == None && x.store == store
  {
  }

  /** Property: the prompt sent upstream is entry 2 exactly for selector 2, else entry 1; an absent header is selector 1. */
  lemma PromptSelection(store: Record, req: Request, parse: string -> IntParse, upstream: Upstream, now: Timestamp)
    requires SelectorOf(req.promptType, parse).Int? && |req.data| > 0
    ensures var x := Analyze(store, req, parse, upstream, now);
      var n := SelectorOf(req.promptType, parse).value;
      x.call.Some? && x.call.value.image == req.data
      && x.call.value.model == VisionModel && x.call.value.maxTokens == 500
      && x.call.value.prompt == (if n == 2 then ObjectsPrompt else SolvePrompt)
      && (req.promptType.None? ==> x.call.value.prompt == SolvePrompt)
  {
  }

  /** Property: upstream text T gives 200 with T in full and a display prefix; the store holds T and the time, nothing older. */
  lemma SuccessReplyAndStore(store: Record, req: Request, parse: string -> IntParse, text: string, now: Timestamp)
    requires SelectorOf(req.promptType, parse).Int? && |req.data| > 0
    ensures var x := Analyze(store, req, parse, Ok(text), now);
      x.reply.code == 200 && x.reply.body.Analysis? && x.reply.body.success
      && x.reply.body.fullResponse == text
      && x.reply.body.response <= text && |x.reply.body.response| <= 200
      && (|text| <= 200 ==> x.reply.body.response == text)
      && (|text| > 200 ==> x.reply.body.response == text[..200])
      && x.store == Record(Some(text), Some(now))
  {
  }

  /** Property: an exception from the upstream call gives 500 with its text; the store is untouched. */
  lemma UpstreamErrorKeepsStore(store: Record, req: Request, parse: string -> IntParse, msg: string, now: Timestamp)
    requires SelectorOf(req.promptType, parse).Int? && |req.data| > 0
    ensures var x := Analyze(store, req, parse, Err(msg), now);
      x.reply == Reply(500, Failure("Error processing request: " + msg)) && x.store == store
  {
  }

  /** Property: `None` content is stored with a timestamp before the length check fails, so 500 follows a write. */
  lemma NoContentWritesThenFails(store: Record, req: Request, parse: string -> IntParse, now: Timestamp)
    requires SelectorOf(req.promptType, parse).Int? && |req.data| > 0
    ensures var x := Analyze(store, req, parse, NoContent, now);
      x.reply == Reply(500, Failure(ErrorPrefix + NoneLenMessage))
      && x.store == Record(None, Some(now))
  {
  }

  /** The Flask application's state: the module-level `latest_result`. */
  class Server {
    var latest: Record

    /** Module import: `latest_result` starts at the sentinel. */
    constructor ()
      ensures latest == Sentinel
      ensures latest.timestamp == None
    {
      latest := Sentinel;
    }

    /** `POST /analyze`, step by step as the handler runs, every exception caught into a 500. */
    method AnalyzeImage(req: Request, parse: string -> IntParse, upstream: Upstream, now: Timestamp)
      returns (reply: Reply, call: Option<VisionCall>)
      modifies this
      ensures var x := Analyze(old(latest), req, parse, upstream, now);
        reply == x.reply && latest == x.store && call == x.call
    {
      // The selector: 1 when the header is absent, else int() of its text.
      var selector: int;
      match req.promptType {
        case None =>
          selector := 1;
        case Some(h) =>
          match parse(h) {
            case ValueError(m) =>
              reply, call := ErrorReply(m), None;
              return;
            case Int(n) =>
              selector := n;
          }
      }
      if |req.data| == 0 {
        reply, call := Reply(400, Failure(NoImageMessage)), None;
        return;
      }
      var prompt := PromptFor(selector);
      call := Some(VisionCall(VisionModel, prompt, req.data, MaxTokens));
      var responseText: Option<string>;
      match upstream {
        case Err(m) =>
          reply := ErrorReply(m);
          return;
        case NoContent =>
          responseText := None;
        case Ok(t) =>
          responseText := Some(t);
      }
      // The global is overwritten before the length of the text is taken.
      latest := Record(responseText, Some(now));
      match responseText {
        case None =>
          reply := ErrorReply(NoneLenMessage);
        case Some(t) =>
          reply := Reply(200, Analysis(true, Truncate(t), t));
      }
    }

    /** `GET /get_result`: the stored response and timestamp, read without change. */
    method GetResult() returns (reply: Reply)
      ensures reply == ResultReply(latest)
    {
      reply := Reply(200, Latest(latest.response, latest.timestamp));
    }

    /** `GET /health`: a fixed reply whatever the store holds. */
    method Health() returns (reply: Reply)
      ensures reply == HealthCheck()
    {
      reply := Reply(200, Status(HealthStatus));
    }
  }

  /** Selector 2 and ten image bytes answered with "cat, table, lamp", then a failing call that leaves the stored text in place. */
  method ObjectListingScenario()
  {
    var parse := (s: string) => if s == "2" then Int(2) else ValueError("invalid literal");
    var server := new Server();
    var before := server.GetResult();
    assert before == Reply(200, Latest(Some(SentinelText), None));
    var image: seq<byte> := [255, 216, 255, 224, 0, 16, 74, 70, 73, 70];
    var reply, call := server.AnalyzeImage(Request(Some("2"), image), parse, Ok("cat, table, lamp"), "2024-01-01 12:00:00");
    assert reply == Reply(200, Analysis(true, "cat, table, lamp", "cat, table, lamp"));
    assert call.Some? && call.value.prompt == ObjectsPrompt;
    var stored := server.GetResult();
    reply, call := server.AnalyzeImage(Request(None, image), parse, Err("network down"), "2024-01-01 12:00:05");
    assert reply == ErrorReply("network down");
    var again := server.GetResult();
    assert again == stored;
  }
}
