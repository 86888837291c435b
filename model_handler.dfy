/**
 * The answer ladder of the legal assistant: a query becomes an answer by
 * trying the configured inference client, then the public REST endpoint,
 * then a table of canned answers chosen by keyword. The network is not
 * modelled; what each remote call would give back is an input
 * (`Environment`), and the calls the ladder makes are recorded in order.
 */
module ModelHandling {
  import opened Wrappers
  import opened Text

  /** Answer when the client is unset and cannot be created. */
  const CANNOT_CONNECT: string := "عذراً، لا يمكن الاتصال بالنموذج في الوقت الحالي. يرجى المحاولة مرة أخرى لاحقاً."
  /** Answer when the REST reply is JSON but not a non-empty list. */
  const NOT_UNDERSTOOD: string := "عذراً، لم أتمكن من فهم الاستجابة من النموذج."
  /** Canned answer when no keyword of the table occurs in the query. */
  const DEFAULT_FALLBACK: string := "عذراً، لا يمكنني الوصول إلى النموذج اللغوي في الوقت الحالي. يرجى المحاولة مرة أخرى لاحقاً، أو البحث عن معلوماتك القانونية من مصادر رسمية موثوقة."

  const KEYWORD_LAW: string := "قانون"
  const KEYWORD_COURT: string := "محكمة"
  const KEYWORD_LAWSUIT: string := "دعوى"
  const ANSWER_LAW: string := "عذراً، لا يمكنني الوصول إلى النموذج اللغوي في الوقت الحالي. للحصول على معلومات قانونية موثوقة، يرجى الرجوع إلى موقع وزارة العدل المصرية أو استشارة محامٍ مختص."
  const ANSWER_COURT: string := "عذراً، لا يمكنني الوصول إلى النموذج اللغوي في الوقت الحالي. للاستفسار عن إجراءات المحكمة، يرجى زيارة موقع وزارة العدل المصرية أو الاتصال بالمحكمة المختصة."
  const ANSWER_LAWSUIT: string := "عذراً، لا يمكنني الوصول إلى النموذج اللغوي في الوقت الحالي. لمعرفة كيفية رفع دعوى، يرجى استشارة محامٍ أو زيارة موقع وزارة العدل المصرية."

  /** The keyword table, in its insertion (and so iteration) order. */
  const FALLBACK_RESPONSES: seq<(string, string)> :=
    [(KEYWORD_LAW, ANSWER_LAW), (KEYWORD_COURT, ANSWER_COURT), (KEYWORD_LAWSUIT, ANSWER_LAWSUIT)]

  const PROMPT_OPEN: string := "<s>[INST] "
  const PROMPT_SEPARATOR: string := "\n\n"
  const PROMPT_CLOSE: string := " [/INST]"
  const API_BASE_URL: string := "https://api-inference.huggingface.co/models/"

  const DEFAULT_MAX_TOKENS: int := 1024
  const DEFAULT_TEMPERATURE: real := 0.1
  const REPETITION_PENALTY: real := 1.1

  /** The configuration values the handler reads: model id, system prompt and an optional API key. */
  datatype Settings = Settings(modelId: string, systemPrompt: string, apiKey: Option<string>)

  /** An inference client handle: the model it talks to and the token it was given. */
  datatype Client = Client(model: string, token: Option<string>)

  /** Generation parameters, shared by the client call and the REST payload. */
  datatype GenParameters = GenParameters(
    maxNewTokens: int,
    temperature: real,
    repetitionPenalty: real,
    doSample: bool,
    returnFullText: bool)

  datatype TextGenRequest = TextGenRequest(prompt: string, parameters: GenParameters)

  /** The JSON body of the REST call: `{"inputs": …, "parameters": {…}}`. */
  datatype Payload = Payload(inputs: string, parameters: GenParameters)

  datatype RestRequest = RestRequest(url: string, headers: map<string, string>, payload: Payload)

  /** A remote operation the ladder performs. */
  datatype Call =
    | InitClient(client: Client)
    | TextGeneration(client: Client, generation: TextGenRequest)
    | RestPost(post: RestRequest)

  /** What a call that may raise gives back. */
  datatype Outcome<T> = Returned(value: T) | Raised

  /**
   * The first element of a JSON list reply: a dict with a string
   * `generated_text`, a dict without that key, or something on which
   * `.get(...)` or `.strip()` raises.
   */
  datatype Element = WithText(text: string) | WithoutText | Malformed

  /**
   * What the REST tier observes: a raised exception (connection fault,
   * non-2xx status, unparsable JSON), a JSON list, or other JSON.
   */
  datatype RestReply = RestRaised | JsonList(items: seq<Element>) | JsonOther

  /** What each remote step would give back in this run. */
  datatype Environment = Environment(initOk: bool, textGeneration: Outcome<string>, restPost: RestReply)

  /** The answer and the remote calls made to reach it, in order. */
  datatype Resolution = Resolution(answer: string, calls: seq<Call>)

  /** Python truthiness of the API key: present and non-empty. */
  predicate HasKey(apiKey: Option<string>) {
    apiKey.Some? && apiKey.value != ""
  }

  /** The token handed to the client: the key when it is truthy, else none. */
  function ClientToken(apiKey: Option<string>): Option<string> {
    if HasKey(apiKey) then apiKey else None
  }

  function NewClient(settings: Settings): Client {
    Client(settings.modelId, ClientToken(settings.apiKey))
  }

  /** The instruction-template prompt: system prompt, a blank line, then the query. */
  function Prompt(systemPrompt: string, query: string): string {
    PROMPT_OPEN + systemPrompt + PROMPT_SEPARATOR + query + PROMPT_CLOSE
  }

  /** Recover the query from a prompt built with `systemPrompt`, if it has that shape. */
  function PromptQuery(systemPrompt: string, prompt: string): Option<string> {
    var head := PROMPT_OPEN + systemPrompt + PROMPT_SEPARATOR;
    if |head| + |PROMPT_CLOSE| <= |prompt| && head <= prompt && prompt[|prompt| - |PROMPT_CLOSE|..] == PROMPT_CLOSE
    then Some(prompt[|head|..|prompt| - |PROMPT_CLOSE|])
    else None
  }

  function Parameters(maxTokens: int, temperature: real): GenParameters {
    GenParameters(maxTokens, temperature, REPETITION_PENALTY, true, false)
  }

  function ApiUrl(modelId: string): string {
    API_BASE_URL + modelId
  }

  /** A Bearer authorization header when the key is truthy, otherwise no headers. */
  function Headers(apiKey: Option<string>): map<string, string> {
    if HasKey(apiKey) then map["Authorization" := "Bearer " + apiKey.value] else map[]
  }

  /** The keyword-table scan: the answer of the first entry whose keyword occurs in `text`. */
  function FirstMatch(table: seq<(string, string)>, text: string): Option<string> {
    if table == [] then None
    else if Contains(text, table[0].0) then Some(table[0].1)
    else FirstMatch(table[1..], text)
  }

  /** The static last tier: a keyword's canned answer, or the generic one. */
  function Fallback(query: string): string {
    match FirstMatch(FALLBACK_RESPONSES, Lower(query))
    case Some(answer) => answer
    case None => DEFAULT_FALLBACK
  }

  /** The REST tier's reading of a reply; `None` when that tier raises. */
  function RestAnswer(reply: RestReply): Option<string> {
    match reply
    case RestRaised => None
    case JsonOther => Some(NOT_UNDERSTOOD)
    case JsonList(items) =>
      if |items| == 0 then Some(NOT_UNDERSTOOD)
      else
        match items[0]
        case WithText(text) => Some(Strip(text))
        case WithoutText => Some(Strip(""))
        case Malformed => None
  }

  /** The whole ladder, starting from the current client field. */
  function Resolve(client: Option<Client>, settings: Settings, env: Environment,
                   query: string, maxTokens: int, temperature: real): Resolution
  {
    var init := if client.None? then [InitClient(NewClient(settings))] else [];
    if client.None? && !env.initOk then Resolution(CANNOT_CONNECT, init)
    else
      var active := if client.Some? then client.value else NewClient(settings);
      var prompt := Prompt(settings.systemPrompt, query);
      var params := Parameters(maxTokens, temperature);
      var first := init + [TextGeneration(active, TextGenRequest(prompt, params))];
      match env.textGeneration
      case Returned(text) => Resolution(Strip(text), first)
      case Raised =>
        var post := RestRequest(ApiUrl(settings.modelId), Headers(settings.apiKey), Payload(prompt, params));
        var second := first + [RestPost(post)];
        match RestAnswer(env.restPost)
        case Some(answer) => Resolution(answer, second)
        case None => Resolution(Fallback(query), second)
  }

  /** Scan the keyword table in order and return the first matching canned answer. */
  method FallbackResponse(query: string) returns (answer: string)
    ensures answer == Fallback(query)
  {
    var text := Lower(query);
    for i := 0 to |FALLBACK_RESPONSES|
      invariant FirstMatch(FALLBACK_RESPONSES, text) == FirstMatch(FALLBACK_RESPONSES[i..], text)
    {
      var (keyword, response) := FALLBACK_RESPONSES[i];
      if Contains(text, keyword) {
        return response;
      }
    }
    return DEFAULT_FALLBACK;
  }

  /** The four fixed answers the static tier can give. */
  function CannedAnswers(): set<string> {
    {ANSWER_LAW, ANSWER_COURT, ANSWER_LAWSUIT, DEFAULT_FALLBACK}
  }

  /** The REST tier is reached: a client exists or is created, and the client call raises. */
  predicate ReachesRest(client: Option<Client>, env: Environment) {
    (client.Some? || env.initOk) && env.textGeneration.Raised?
  }

  /** Unset client and failed re-initialisation: the fixed message, and no tier is tried. */
  lemma ResolveInitFailure(settings: Settings, env: Environment, query: string, maxTokens: int, temperature: real)
    requires !env.initOk
    ensures Resolve(None, settings, env, query, maxTokens, temperature)
         == Resolution(CANNOT_CONNECT, [InitClient(NewClient(settings))])
  {
  }

  /** A successful client call answers with its stripped text; the REST endpoint is not called. */
  lemma ResolveTierOne(client: Option<Client>, settings: Settings, env: Environment,
                       query: string, maxTokens: int, temperature: real)
    requires client.Some? || env.initOk
    requires env.textGeneration.Returned?
    ensures var r := Resolve(client, settings, env, query, maxTokens, temperature);
      && r.answer == Strip(env.textGeneration.value)
      && (forall c :: c in r.calls ==> !c.RestPost?)
  {
  }

  /** A non-empty JSON list answers with the first element's stripped `generated_text`, `""` when the key is missing. */
  lemma ResolveRestList(client: Option<Client>, settings: Settings, env: Environment,
                        query: string, maxTokens: int, temperature: real)
    requires ReachesRest(client, env)
    requires env.restPost.JsonList? && |env.restPost.items| > 0 && !env.restPost.items[0].Malformed?
    ensures Resolve(client, settings, env, query, maxTokens, temperature).answer
         == match env.restPost.items[0]
            case WithText(text) => Strip(text)
            case _ => ""
  {
    StripEmpty();
  }

  /** JSON that is not a list, or an empty list, gives the fixed message and not a canned answer. */
  lemma ResolveRestNotUnderstood(client: Option<Client>, settings: Settings, env: Environment,
                                 query: string, maxTokens: int, temperature: real)
    requires ReachesRest(client, env)
    requires env.restPost.JsonOther? || env.restPost == JsonList([])
    ensures var r := Resolve(client, settings, env, query, maxTokens, temperature);
      r.answer == NOT_UNDERSTOOD && r.answer !in CannedAnswers()
  {
    MessagesDistinct();
  }

  /** When the REST tier raises as well, the answer comes from the keyword table. */
  lemma ResolveRestRaised(client: Option<Client>, settings: Settings, env: Environment,
                          query: string, maxTokens: int, temperature: real)
    requires ReachesRest(client, env)
    requires || env.restPost.RestRaised?
             || (env.restPost.JsonList? && |env.restPost.items| > 0 && env.restPost.items[0].Malformed?)
    ensures var r := Resolve(client, settings, env, query, maxTokens, temperature);
      r.answer == Fallback(query) && r.answer in CannedAnswers()
  {
    FallbackIsCanned(query);
  }

  /** Two calls are of the same kind: both creation attempts, both client calls or both REST calls. */
  predicate SameKind(a: Call, b: Call) {
    (a.InitClient? && b.InitClient?) || (a.TextGeneration? && b.TextGeneration?) || (a.RestPost? && b.RestPost?)
  }

  /**
   * The calls made, stated call by call: each kind at most once, with no
   * retries; a creation attempt exactly when the client was unset, and always first; a client call exactly when a client
   * exists or is created, carrying the template prompt and the caller's
   * parameters; a REST call exactly when the client call raised, made after
   * a client call and sending that call's prompt and parameters to the
   * model's URL with the key's headers.
   */
  lemma ResolveCalls(client: Option<Client>, settings: Settings, env: Environment,
                     query: string, maxTokens: int, temperature: real)
    ensures var calls := Resolve(client, settings, env, query, maxTokens, temperature).calls;
      && |calls| == (if client.None? then 1 else 0) + (if client.Some? || env.initOk then 1 else 0)
                    + (if ReachesRest(client, env) then 1 else 0)
      && (forall i, j :: 0 <= i < j < |calls| ==> !SameKind(calls[i], calls[j]))
      && ((exists i :: 0 <= i < |calls| && calls[i].InitClient?) <==> client.None?)
      && (forall i :: 0 <= i < |calls| && calls[i].InitClient? ==> i == 0 && calls[i].client == NewClient(settings))
      && ((exists j :: 0 <= j < |calls| && calls[j].TextGeneration?) <==> client.Some? || env.initOk)
      && (forall j :: 0 <= j < |calls| && calls[j].TextGeneration? ==>
            && calls[j].client == (if client.Some? then client.value else NewClient(settings))
            && calls[j].generation == TextGenRequest(Prompt(settings.systemPrompt, query), Parameters(maxTokens, temperature)))
      && ((exists k :: 0 <= k < |calls| && calls[k].RestPost?) <==> ReachesRest(client, env))
      && (forall k :: 0 <= k < |calls| && calls[k].RestPost? ==>
            && calls[k].post.url == ApiUrl(settings.modelId)
            && calls[k].post.headers == Headers(settings.apiKey)
            && exists j :: 0 <= j < k && calls[j].TextGeneration?
                 && calls[k].post.payload.inputs == calls[j].generation.prompt
                 && calls[k].post.payload.parameters == calls[j].generation.parameters)
  {
    var calls := Resolve(client, settings, env, query, maxTokens, temperature).calls;
    var offset := if client.None? then 1 else 0;
    if !(client.None? && !env.initOk) {
      assert calls[offset].TextGeneration?;
      if env.textGeneration.Raised? {
        assert calls[offset + 1].RestPost?;
      }
    }
    if client.None? {
      assert calls[0].InitClient?;
    }
  }

  /** The prompt has the instruction template's shape and gives back the query. */
  lemma PromptRoundTrip(systemPrompt: string, query: string)
    ensures PromptQuery(systemPrompt, Prompt(systemPrompt, query)) == Some(query)
  {
    var head := PROMPT_OPEN + systemPrompt + PROMPT_SEPARATOR;
    var p := Prompt(systemPrompt, query);
    assert p == head + query + PROMPT_CLOSE;
    assert p[..|head|] == head;
    assert p[|p| - |PROMPT_CLOSE|..] == PROMPT_CLOSE;
    assert p[|head|..|p| - |PROMPT_CLOSE|] == query;
  }

  /** Whatever `PromptQuery` accepts is exactly the prompt built from the query it returns. */
  lemma PromptQueryInverse(systemPrompt: string, prompt: string, query: string)
    requires PromptQuery(systemPrompt, prompt) == Some(query)
    ensures Prompt(systemPrompt, query) == prompt
  {
    var head := PROMPT_OPEN + systemPrompt + PROMPT_SEPARATOR;
    assert prompt == prompt[..|head|] + prompt[|head|..|prompt| - |PROMPT_CLOSE|] + prompt[|prompt| - |PROMPT_CLOSE|..];
  }

  /** Different queries give different prompts. */
  lemma PromptInjective(systemPrompt: string, q1: string, q2: string)
    requires Prompt(systemPrompt, q1) == Prompt(systemPrompt, q2)
    ensures q1 == q2
  {
    PromptRoundTrip(systemPrompt, q1);
    PromptRoundTrip(systemPrompt, q2);
  }

  /** The payload parameters pass the caller's values through and fix the other three. */
  lemma ParametersPassThrough(maxTokens: int, temperature: real)
    ensures var p := Parameters(maxTokens, temperature);
      && p.maxNewTokens == maxTokens && p.temperature == temperature
      && p.repetitionPenalty == 1.1 && p.doSample && !p.returnFullText
  {
  }

  /**
   * There is an Authorization header exactly when the key is truthy, and it
   * is `Bearer <key>` with the same key the client is given as its token.
   */
  lemma HeadersAuthorization(apiKey: Option<string>)
    ensures "Authorization" in Headers(apiKey) <==> HasKey(apiKey)
    ensures HasKey(apiKey) ==> Headers(apiKey) == map["Authorization" := "Bearer " + apiKey.value]
    ensures !HasKey(apiKey) ==> Headers(apiKey) == map[]
    ensures ClientToken(apiKey).Some? <==> "Authorization" in Headers(apiKey)
    ensures ClientToken(apiKey).Some? ==> Headers(apiKey)["Authorization"] == "Bearer " + ClientToken(apiKey).value
  {
  }

  /** The table scan returns the answer of the first entry whose keyword occurs. */
  lemma {:induction false} FirstMatchFirst(table: seq<(string, string)>, text: string, i: nat)
    requires i < |table| && Contains(text, table[i].0)
    requires forall j :: 0 <= j < i ==> !Contains(text, table[j].0)
    ensures FirstMatch(table, text) == Some(table[i].1)
  {
    if i > 0 {
      FirstMatchFirst(table[1..], text, i - 1);
    }
  }

  /** The table scan finds nothing exactly when no keyword occurs. */
  lemma {:induction false} FirstMatchNone(table: seq<(string, string)>, text: string)
    ensures FirstMatch(table, text) == None <==> forall i :: 0 <= i < |table| ==> !Contains(text, table[i].0)
  {
    if table != [] {
      FirstMatchNone(table[1..], text);
      assert forall i :: 1 <= i < |table| ==> table[i] == table[1..][i - 1];
    }
  }

  /** The static tier for the three keywords, tried in the table's order. */
  lemma FallbackByKeyword(query: string)
    ensures var text := Lower(query);
      Fallback(query) == if Contains(text, KEYWORD_LAW) then ANSWER_LAW
                         else if Contains(text, KEYWORD_COURT) then ANSWER_COURT
                         else if Contains(text, KEYWORD_LAWSUIT) then ANSWER_LAWSUIT
                         else DEFAULT_FALLBACK
  {
    var text := Lower(query);
    var rest1 := [(KEYWORD_COURT, ANSWER_COURT), (KEYWORD_LAWSUIT, ANSWER_LAWSUIT)];
    var rest2 := [(KEYWORD_LAWSUIT, ANSWER_LAWSUIT)];
    assert FALLBACK_RESPONSES[1..] == rest1 && rest1[1..] == rest2 && rest2[1..] == [];
    assert FirstMatch(rest2, text) == if Contains(text, KEYWORD_LAWSUIT) then Some(ANSWER_LAWSUIT) else None;
    assert FirstMatch(rest1, text) == if Contains(text, KEYWORD_COURT) then Some(ANSWER_COURT) else FirstMatch(rest2, text);
  }

  /** The static tier always gives one of the four fixed answers. */
  lemma FallbackIsCanned(query: string)
    ensures Fallback(query) in CannedAnswers()
  {
    FallbackByKeyword(query);
  }

  /** Lowercasing the query first does not change the static tier's choice. */
  lemma FallbackCaseInsensitive(query: string)
    ensures Fallback(Lower(query)) == Fallback(query)
  {
    LowerIdempotent(query);
  }

  /** The two ladder messages are neither canned answers nor each other. */
  lemma MessagesDistinct()
    ensures CANNOT_CONNECT !in CannedAnswers() && NOT_UNDERSTOOD !in CannedAnswers()
    ensures CANNOT_CONNECT != NOT_UNDERSTOOD
    ensures |CannedAnswers()| == 4
  {
  }

  /** A reply list whose first element has no `generated_text` makes the answer empty. */
  lemma ResolveCanBeEmpty(client: Client, settings: Settings, query: string, maxTokens: int, temperature: real)
    ensures Resolve(Some(client), settings, Environment(false, Raised, JsonList([WithoutText])),
                    query, maxTokens, temperature).answer == ""
  {
    StripEmpty();
  }

  class ModelHandler {
    const modelId: string
    const systemPrompt: string
    const apiKey: Option<string>
    /** The inference client; `None` until a creation attempt succeeds. */
    var client: Option<Client>

    /** Store the configuration, then try once to create the client. */
    constructor (modelId: string, systemPrompt: string, apiKey: Option<string>, initOk: bool)
      ensures this.modelId == modelId && this.systemPrompt == systemPrompt && this.apiKey == apiKey
      ensures client == if initOk then Some(NewClient(Settings(modelId, systemPrompt, apiKey))) else None
    {
      this.modelId := modelId;
      this.systemPrompt := systemPrompt;
      this.apiKey := apiKey;
      client := None;
      new;
      var ok := InitializeClient(initOk);
    }

    function Config(): Settings {
      Settings(modelId, systemPrompt, apiKey)
    }

    /** Create the client; `initOk` says whether the construction succeeds. A failure leaves the field as it was. */
    method InitializeClient(initOk: bool) returns (ok: bool)
      modifies this
      ensures ok == initOk
      ensures client == if initOk then Some(NewClient(Config())) else old(client)
    {
      if initOk {
        client := Some(NewClient(Config()));
        return true;
      }
      return false;
    }

    /** Turn a query into an answer string, tier by tier. */
    method GenerateResponse(env: Environment, query: string,
                            maxTokens: int := DEFAULT_MAX_TOKENS, temperature: real := DEFAULT_TEMPERATURE)
      returns (answer: string, ghost calls: seq<Call>)
      modifies this
      ensures Resolution(answer, calls) == Resolve(old(client), Config(), env, query, maxTokens, temperature)
      ensures client == if old(client).None? && env.initOk then Some(NewClient(Config())) else old(client)
    {
      calls := [];
      if client.None? {
        calls := calls + [InitClient(NewClient(Config()))];
        var ok := InitializeClient(env.initOk);
        if !ok {
          return CANNOT_CONNECT, calls;
        }
      }

      // Tier 1: the inference client.
      var prompt := Prompt(systemPrompt, query);
      var params := Parameters(maxTokens, temperature);
      calls := calls + [TextGeneration(client.value, TextGenRequest(prompt, params))];
      if env.textGeneration.Returned? {
        return Strip(env.textGeneration.value), calls;
      }

      // Tier 2: the public REST endpoint.
      var post := RestRequest(ApiUrl(modelId), Headers(apiKey), Payload(prompt, params));
      calls := calls + [RestPost(post)];
      var reply := env.restPost;
      if reply.JsonList? && |reply.items| > 0 {
        match reply.items[0]
        case WithText(text) =>
          return Strip(text), calls;
        case WithoutText =>
          return Strip(""), calls;
        case Malformed =>
      } else if !reply.RestRaised? {
        return NOT_UNDERSTOOD, calls;
      }

      // Tier 3: the canned answers.
      answer := FallbackResponse(query);
    }
  }
}
