/**
 * The TaskGenerator component: checks the user's input, picks the API key,
 * asks the completion endpoint for tasks, recovers a JSON array from the
 * answer, decorates each element as a task and hands the batch to the store.
 */
module TaskGenerator {
  import opened Wrappers
  import opened Values
  import opened Text
  import App

  const Endpoint: string := "https://api.openai.com/v1/chat/completions"
  const ModelName: string := "gpt-3.5-turbo"
  const MaxTokens: nat := 500

  const EmptyContextMessage: string := "Please enter a context to generate tasks."
  const MissingKeyMessage: string := "Please enter your OpenAI API key or set it in environment variables."
  const InvalidKeyMessage: string := "Invalid API key. Please check your OpenAI API key and try again."
  const RateLimitMessage: string := "Rate limit exceeded. Please wait a moment and try again."
  const GenericMessage: string := "Failed to generate tasks. Please check your API key and try again."

  /** The text of the prompt before and after the user's context. */
  const PromptHead: string := "Based on the context: \""
  const PromptTail: string :=
    "\", generate exactly 4 tasks to help accomplish this goal. \n" +
    "      \n" +
    "      Return ONLY a valid JSON array with this exact structure:\n" +
    "      [\n" +
    "        {\n" +
    "          \"name\": \"Task name\",\n" +
    "          \"description\": \"Detailed description of what needs to be done\",\n" +
    "          \"timeframe\": \"estimated time (e.g., '2 hours', '1 day', '30 minutes')\"\n" +
    "        }\n" +
    "      ]\n" +
    "      \n" +
    "      Make sure each task is actionable, specific, and includes a realistic timeframe estimate."

  /** The chat-completion request: its URL, model, single user message, token budget and bearer header. */
  datatype Request = Request(endpoint: string, model: string, prompt: string, maxTokens: nat, authorization: string)

  /** How the completion call ended: with the message content, with an HTTP error status, or with no response at all. */
  datatype Reply = Answered(content: string) | Rejected(status: int) | Unreachable

  /** The prompt embeds the context verbatim (untrimmed) between the fixed head and tail. */
  function Prompt(context: string): (p: string)
    ensures |p| == |PromptHead| + |context| + |PromptTail|
    ensures p[|PromptHead|..|PromptHead| + |context|] == context
    ensures p[..|PromptHead|] == PromptHead && p[|PromptHead| + |context|..] == PromptTail
  {
    PromptHead + context + PromptTail
  }

  /** The request `generateTasks` sends for a context and a chosen key. */
  function RequestFor(context: string, key: string): (r: Request)
    ensures r.prompt == Prompt(context) && r.authorization == "Bearer " + key
    ensures r.endpoint == Endpoint && r.model == ModelName && r.maxTokens == MaxTokens
  {
    Request(Endpoint, ModelName, Prompt(context), MaxTokens, "Bearer " + key)
  }

  /**
   * `apiKey.trim() || defaultKey`, then the falsy check: the trimmed typed key
   * when non-empty, otherwise the configured default when it is a non-empty
   * string (the default is not trimmed), otherwise no key.
   */
  function SelectCredential(apiKey: string, defaultKey: Option<string>): (r: Option<string>)
    ensures Trim(apiKey) != "" ==> r == Some(Trim(apiKey))
    ensures Trim(apiKey) == "" ==> (r.Some? <==> defaultKey.Some? && defaultKey.value != "")
    ensures Trim(apiKey) == "" && r.Some? ==> r == defaultKey
    ensures r.Some? ==> r.value != ""
  {
    var typed := Trim(apiKey);
    if typed != "" then Some(typed)
    else if defaultKey.Some? && defaultKey.value != "" then defaultKey
    else None
  }

  /** The first position of `c` in `s`, if any. */
  function FirstIndexOf(s: string, c: char): (r: Option<nat>)
    ensures r.None? ==> forall k :: 0 <= k < |s| ==> s[k] != c
    ensures r.Some? ==> r.value < |s| && s[r.value] == c && forall k :: 0 <= k < r.value ==> s[k] != c
  {
    if s == [] then None
    else if s[0] == c then Some(0)
    else match FirstIndexOf(s[1..], c)
      case None => None
      case Some(k) => Some(k + 1)
  }

  /** The last position of `c` in `s`, if any. */
  function LastIndexOf(s: string, c: char): (r: Option<nat>)
    ensures r.None? ==> forall k :: 0 <= k < |s| ==> s[k] != c
    ensures r.Some? ==> r.value < |s| && s[r.value] == c && forall k :: r.value < k < |s| ==> s[k] != c
  {
    if s == [] then None
    else if s[|s| - 1] == c then Some(|s| - 1)
    else LastIndexOf(s[..|s| - 1], c)
  }

  /**
   * `s[i..j]` (inclusive) is what `/\[[\s\S]*\]/` matches in `s`: the match starts at
   * the leftmost `[` (no earlier start can match) and, being greedy, runs to the last `]`.
   */
  ghost predicate BracketSpan(s: string, i: int, j: int)
  {
    0 <= i < j < |s| && s[i] == '[' && s[j] == ']' &&
    (forall k :: 0 <= k < i ==> s[k] != '[') &&
    (forall k :: j < k < |s| ==> s[k] != ']')
  }

  /**
   * `s.match(/\[[\s\S]*\]/)`, the fallback extraction: it matches exactly when some `[`
   * has a `]` after it, and the match is the slice from the first `[` to the last `]`.
   */
  function ExtractArrayText(s: string): (r: Option<string>)
    ensures r.None? <==> forall i, j :: 0 <= i < j < |s| ==> !(s[i] == '[' && s[j] == ']')
    ensures r.Some? ==> exists i, j :: BracketSpan(s, i, j) && r.value == s[i..j + 1]
    ensures r.Some? ==> |r.value| >= 2 && r.value[0] == '[' && r.value[|r.value| - 1] == ']'
  {
    var first := FirstIndexOf(s, '[');
    var last := LastIndexOf(s, ']');
    if first.Some? && last.Some? && first.value < last.value then
      assert BracketSpan(s, first.value, last.value);
      Some(s[first.value..last.value + 1])
    else
      None
  }

  /**
   * The two-stage parse: the whole text if it parses; otherwise the bracketed
   * slice if there is one and it parses; otherwise nothing.
   */
  function ParseResponse(text: string, parse: string -> Option<Value>): (r: Option<Value>)
    ensures parse(text).Some? ==> r == parse(text)
    ensures r.Some? && parse(text).None? ==> exists i, j :: BracketSpan(text, i, j) && r == parse(text[i..j + 1])
    ensures r.None? ==> parse(text).None?
  {
    match parse(text)
    case Some(v) => Some(v)
    case None =>
      match ExtractArrayText(text)
      case None => None
      case Some(m) => parse(m)
  }

  /** Prose around an array does not stop it being found: the fallback parses the bracketed slice. */
  lemma FallbackFindsWrappedArray(text: string, parse: string -> Option<Value>, i: int, j: int)
    requires parse(text).None? && BracketSpan(text, i, j)
    ensures ParseResponse(text, parse) == parse(text[i..j + 1])
  {
  }

  /** A text that neither parses nor holds a `[` ... `]` pair yields nothing. */
  lemma NoBracketsNoTasks(text: string, parse: string -> Option<Value>)
    requires parse(text).None?
    requires forall i, j :: 0 <= i < j < |text| ==> !(text[i] == '[' && text[j] == ']')
    ensures ParseResponse(text, parse).None?
  {
  }

  /**
   * `tasks.map((task, index) => ({ ...task, id: Date.now() + index, completed: false,
   * createdAt: new Date().toISOString() }))`. The clock is read once per element:
   * `clock(i)` and `stamp(i)` are the readings taken for element `i`.
   */
  function Decorate(items: seq<Value>, clock: nat -> int, stamp: nat -> string): (r: seq<App.Task>)
    ensures |r| == |items|
    ensures forall i :: 0 <= i < |items| ==>
      Get(r[i], "id") == Num(clock(i) + i) && Get(r[i], "completed") == Bool(false) &&
      Get(r[i], "createdAt") == Str(stamp(i))
    ensures forall i, k :: 0 <= i < |items| && k != "id" && k != "completed" && k != "createdAt" ==>
      (k in r[i] <==> k in Spread(items[i])) && Get(r[i], k) == Get(Spread(items[i]), k)
  {
    seq(|items|, i requires 0 <= i < |items| =>
      Merge(Spread(items[i]), map["id" := Num(clock(i) + i), "completed" := Bool(false), "createdAt" := Str(stamp(i))]))
  }

  /**
   * When the clock does not tick during the batch, element `i` gets id `base + i`
   * and every element gets the same creation time.
   */
  lemma SteadyClockDecoration(items: seq<Value>, clock: nat -> int, stamp: nat -> string, base: int, now: string, i: nat)
    requires forall k :: clock(k) == base
    requires forall k :: stamp(k) == now
    requires i < |items|
    ensures Get(Decorate(items, clock, stamp)[i], "id") == Num(base + i)
    ensures Get(Decorate(items, clock, stamp)[i], "createdAt") == Str(now)
  {
  }

  /** With a clock that never runs backwards, the ids within one batch are strictly increasing, hence distinct. */
  lemma BatchIdsIncrease(items: seq<Value>, clock: nat -> int, stamp: nat -> string, i: nat, j: nat)
    requires forall a, b :: a <= b ==> clock(a) <= clock(b)
    requires i < j < |items|
    ensures Get(Decorate(items, clock, stamp)[i], "id").n < Get(Decorate(items, clock, stamp)[j], "id").n
  {
  }

  /** The message shown for a failure, by the HTTP status of the error (if it has one). */
  function ErrorMessage(status: Option<int>): (m: string)
    ensures m == InvalidKeyMessage <==> status == Some(401)
    ensures m == RateLimitMessage <==> status == Some(429)
    ensures m == GenericMessage <==> status != Some(401) && status != Some(429)
  {
    assert |InvalidKeyMessage| != |RateLimitMessage| && |InvalidKeyMessage| != |GenericMessage|;
    assert |RateLimitMessage| != |GenericMessage|;
    if status == Some(401) then InvalidKeyMessage
    else if status == Some(429) then RateLimitMessage
    else GenericMessage
  }

  /**
   * What happens once the completion call has ended: either the whole decorated
   * batch (one task per parsed element) or the message for the error.
   */
  function Ingest(reply: Reply, parse: string -> Option<Value>, clock: nat -> int, stamp: nat -> string): (o: Result<seq<App.Task>, string>)
    ensures o.Ok? <==> reply.Answered? && ParseResponse(Trim(reply.content), parse).Some? &&
                       ParseResponse(Trim(reply.content), parse).value.Arr?
    ensures o.Ok? ==> o.value == Decorate(ParseResponse(Trim(reply.content), parse).value.items, clock, stamp)
    ensures o.Err? ==> o.error == ErrorMessage(if reply.Rejected? then Some(reply.status) else None)
  {
    match reply
    case Answered(content) =>
      (match ParseResponse(Trim(content), parse)
       case Some(Arr(items)) => Ok(Decorate(items, clock, stamp))
       case _ => Err(ErrorMessage(None)))
    case Rejected(status) => Err(ErrorMessage(Some(status)))
    case Unreachable => Err(ErrorMessage(None))
  }

  /** A batch is all or nothing: it has exactly one task per element of the parsed array. */
  lemma IngestAllOrNothing(reply: Reply, parse: string -> Option<Value>, clock: nat -> int, stamp: nat -> string)
    requires Ingest(reply, parse, clock, stamp).Ok?
    ensures var v := ParseResponse(Trim(reply.content), parse).value;
            |Ingest(reply, parse, clock, stamp).value| == |v.items|
  {
  }

  /** 401 and 429 are told apart; every other failure, a parse failure included, gets the generic message. */
  lemma IngestClassifiesErrors(reply: Reply, parse: string -> Option<Value>, clock: nat -> int, stamp: nat -> string)
    requires Ingest(reply, parse, clock, stamp).Err?
    ensures Ingest(reply, parse, clock, stamp).error == InvalidKeyMessage <==> reply == Rejected(401)
    ensures Ingest(reply, parse, clock, stamp).error == RateLimitMessage <==> reply == Rejected(429)
    ensures Ingest(reply, parse, clock, stamp).error == GenericMessage <==> reply != Rejected(401) && reply != Rejected(429)
  {
  }

  /** The state of one TaskGenerator component. */
  class Component {
    var context: string
    var apiKey: string
    var loading: bool
    var error: string
    /** The key configured for the build, if any. */
    const defaultKey: Option<string>

    constructor (defaultKey: Option<string>)
      ensures this.defaultKey == defaultKey
      ensures context == "" && apiKey == "" && !loading && error == ""
    {
      this.defaultKey := defaultKey;
      context, apiKey, loading, error := "", "", false, "";
    }

    /**
     * The part of `generateTasks` before the request is awaited: validate the
     * context, choose the key, and if both are present start loading and
     * issue the request. On a validation failure no request is made and
     * `loading` is left alone.
     */
    method Start() returns (request: Option<Request>)
      modifies this`loading, this`error
      ensures request.Some? <==> Trim(context) != "" && SelectCredential(apiKey, defaultKey).Some?
      ensures Trim(context) == "" ==> error == EmptyContextMessage && loading == old(loading)
      ensures Trim(context) != "" && SelectCredential(apiKey, defaultKey).None? ==>
                error == MissingKeyMessage && loading == old(loading)
      ensures request.Some? ==>
                request.value == RequestFor(context, SelectCredential(apiKey, defaultKey).value) &&
                loading && error == ""
    {
      if Trim(context) == "" {
        error := EmptyContextMessage;
        return None;
      }
      var key := SelectCredential(apiKey, defaultKey);
      if key.None? {
        error := MissingKeyMessage;
        return None;
      }
      loading := true;
      error := "";
      request := Some(RequestFor(context, key.value));
    }

    /**
     * The part after the request settles: parse the answer (whole text, then the
     * bracketed slice), decorate the tasks and hand them over, clearing the
     * context; or show the error message. Either way `loading` ends false.
     */
    method Finish(reply: Reply, parse: string -> Option<Value>, clock: nat -> int, stamp: nat -> string)
      returns (delivered: Option<seq<App.Task>>)
      modifies this`context, this`error, this`loading
      ensures !loading && apiKey == old(apiKey)
      ensures var o := Ingest(reply, parse, clock, stamp);
              if o.Ok? then delivered == Some(o.value) && context == "" && error == old(error)
              else delivered.None? && context == old(context) && error == o.error
    {
      delivered := None;
      match reply {
        case Answered(content) =>
          var responseText := Trim(content);
          var tasks := parse(responseText);
          if tasks.None? {
            var jsonMatch := ExtractArrayText(responseText);
            if jsonMatch.Some? {
              tasks := parse(jsonMatch.value);
            }
          }
          if tasks.Some? && tasks.value.Arr? {
            delivered := Some(Decorate(tasks.value.items, clock, stamp));
            context := "";
          } else {
            error := ErrorMessage(None);
          }
        case Rejected(status) =>
          error := ErrorMessage(Some(status));
        case Unreachable =>
          error := ErrorMessage(None);
      }
      loading := false;
    }

    /**
     * `generateTasks` from start to end, with `reply` standing for how the
     * request would settle. Nothing is delivered unless a request was made,
     * and whenever a request was made `loading` ends false.
     */
    method GenerateTasks(reply: Reply, parse: string -> Option<Value>, clock: nat -> int, stamp: nat -> string)
      returns (request: Option<Request>, delivered: Option<seq<App.Task>>)
      modifies this`context, this`error, this`loading
      ensures apiKey == old(apiKey)
      ensures request.Some? <==> Trim(old(context)) != "" && SelectCredential(apiKey, defaultKey).Some?
      ensures request.None? ==> delivered.None? && context == old(context) && loading == old(loading)
      ensures request.None? ==> error == (if Trim(old(context)) == "" then EmptyContextMessage else MissingKeyMessage)
      ensures request.Some? ==> !loading
      ensures request.Some? ==> var o := Ingest(reply, parse, clock, stamp);
                if o.Ok? then delivered == Some(o.value) && context == "" && error == ""
                else delivered.None? && context == old(context) && error == o.error
    {
      request := Start();
      delivered := None;
      if request.Some? {
        delivered := Finish(reply, parse, clock, stamp);
      }
    }
  }
}
