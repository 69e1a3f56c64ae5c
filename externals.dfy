/**
 * Everything the modelled code receives from outside: the clock, the random generator, the
 * floating-point helpers, hashing, percent-encoding, JSON decoding, uuid4 and the two language-model
 * back ends. Each is a parameter, so every property proved holds for any behaviour of it.
 */
module Externals {
  import opened Wrappers

  /** `math.sqrt`, the standard normal CDF and `round(x, digits)`, left uninterpreted. */
  datatype Numerics = Numerics(sqrt: real -> real, normalCdf: real -> real, round: (real, int) -> real)

  /** One hex digit by its value: "0".."9" are 0..9 and "a".."f" are 10..15. */
  newtype HexDigit = x: int | 0 <= x < 16

  /** What `hashlib.sha256(...).hexdigest()` returns: its 64 hex digits. */
  type HexDigest = s: seq<HexDigit> | |s| == 64 witness seq(64, i => 0 as HexDigit)

  /** The outcome of a foreign call that may raise. */
  datatype CallOutcome<+T> = Raised | Returned(value: T)

  /** `usage_metadata` of a chat response: a dict of counters, or anything that is not a dict. */
  datatype UsageMetadata = UsageMetadataNotDict | UsageMetadataDict(counts: map<string, int>)

  /** The `token_usage` entry of `response_metadata`: missing, a dict, or some other value. */
  datatype TokenUsageEntry = TokenUsageMissing | TokenUsageDict(counts: map<string, int>) | TokenUsageNotDict

  /** `response_metadata` of a chat response: a dict (only its `token_usage` entry matters), or not a dict. */
  datatype ResponseMetadata = ResponseMetadataNotDict | ResponseMetadataDict(tokenUsage: TokenUsageEntry)

  /** The `content` of a chat response: a string, or a list of parts (joined with newlines). */
  datatype MessageContent = TextContent(text: string) | PartsContent(parts: seq<string>)

  /** A chat-model response as the OpenAI-compatible client returns it. */
  datatype LlmResponse = LlmResponse(content: MessageContent, usageMetadata: UsageMetadata, responseMetadata: ResponseMetadata)

  /**
   * The JSON body of an Ollama `/api/chat` reply: the message text and `int()` of the two counters,
   * which is 0 for a missing counter and raises for null or any other value `int()` rejects.
   */
  datatype OllamaReply = OllamaReply(content: string, promptEvalCount: CallOutcome<int>, evalCount: CallOutcome<int>)

  /**
   * `float()` of a field after `or 0.75` has been applied: a missing or falsy value, the number a
   * truthy value converts to, or a truthy value `float()` rejects (a non-numeric text, a non-empty
   * list or object), which raises.
   */
  datatype FloatField = FloatAbsent | FloatOf(x: real) | NotAFloat

  /**
   * One object of the `variants` list in the model's JSON. A text field is `None` when the key is
   * missing or its value falsy, and otherwise the `str()` of its value.
   */
  datatype RawScriptItem = RawScriptItem(
    id: Option<string>, tone: Option<string>, hook: Option<string>, body: Option<string>,
    cta: Option<string>, predictedRetention: FloatField)

  /** One element of `variants`: an object, or any other JSON value (which has no `.get`). */
  datatype JsonItem = ItemObject(item: RawScriptItem) | ItemNotObject

  /**
   * The `variants` value (missing = []) as `[:3]` sees it: a list of elements, where a text counts
   * as the list of its one-character texts, none of them an object; or null, a number, a boolean or
   * an object, which `[:3]` rejects.
   */
  datatype VariantsValue = ItemList(items: seq<JsonItem>) | NotSliceable

  /** `json.loads(text)`: a decode error, a JSON value that is not an object, or an object with its `variants`. */
  datatype JsonParse = DecodeError | NonObject | JsonObject(variants: VariantsValue)

  /**
   * The collaborators of one workflow invocation.
   * `normalDraw(w, k)` is the k-th standard normal value drawn by `random.Random(md5(w))`, so that
   * `rng.gauss(mu, sigma)` on draw k is `mu + sigma * normalDraw(w, k)`. An Ollama reply is
   * `Raised` when the post, the status check, the body's JSON decoding or the `message` lookup raises.
   */
  datatype Collaborators = Collaborators(
    now: real,
    normalDraw: (string, nat) -> real,
    numerics: Numerics,
    sha256Hex: string -> HexDigest,
    quote: string -> string,
    jsonLoads: string -> JsonParse,
    openAiReply: CallOutcome<LlmResponse>,
    ollamaReply: CallOutcome<OllamaReply>)

  /** `str(uuid.uuid4())`: 36 characters. */
  type UuidText = s: string | |s| == 36 witness seq(36, i => '0')

  /** The process's `uuid.uuid4()` stream: the k-th call returns `ids(k)`. */
  class UuidSource {
    const ids: nat -> UuidText
    var drawn: nat

    constructor (ids: nat -> UuidText)
      ensures this.ids == ids && drawn == 0
    {
      this.ids := ids;
      drawn := 0;
    }

    /** `str(uuid.uuid4())` */
    method Next() returns (id: UuidText)
      modifies this`drawn
      ensures id == ids(old(drawn)) && drawn == old(drawn) + 1
    {
      id := ids(drawn);
      drawn := drawn + 1;
    }
  }

  /** `int(x)` for a float: truncation toward zero. */
  function Trunc(x: real): int {
    if x >= 0.0 then x.Floor else -((-x).Floor)
  }

  /** `int(x)` drops the fractional part: it moves toward zero by less than one. */
  lemma TruncTowardZero(x: real)
    ensures x >= 0.0 ==> 0 <= Trunc(x) && Trunc(x) as real <= x < Trunc(x) as real + 1.0
    ensures x < 0.0 ==> Trunc(x) <= 0 && Trunc(x) as real - 1.0 < x <= Trunc(x) as real
  {
  }
}
