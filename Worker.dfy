/** The worker's `fetch` handler: the secret gate, method dispatch, input
    validation, and the POST flow that asks the selected model, decides from
    its reply whether to search, and at most once re-asks the same model with
    the search digest appended.

    `Handle` states the whole flow as a function of the request, the
    configuration and the network; `Fetch` is the handler as the worker runs
    it, step by step, against an `Upstream` object that records every backend
    call in a ghost log. */
module Worker {

  import opened Js
  import opened Html
  import opened SearchTrigger
  import opened Backends

  /** The configuration the platform passes as `env`. */
  datatype Env = Env(
    authSecret: Option<string>,   // AUTH_SECRET
    redirectUrl: string,          // redirect_url
    deepSeekKey: Option<string>)  // DEEPSEEK_API_KEY

  /** What the handler reads from a request: the method, the `secret` query
      parameter, and the `model` and `query` form fields (`None` when absent). */
  datatype Request = Request(
    httpMethod: string,
    secret: Option<string>,
    model: Option<string>,
    query: Option<string>)

  /** The responses the handler can give. `Form` is the HTML page of `getHtml`. */
  datatype Response =
    | Redirect(location: string)
    | Form
    | PlainText(status: int, body: string)
    | Crash(fault: Fault)

  function Status(r: Response): int
  {
    match r
    case Redirect(_) => 302
    case Form => 200
    case PlainText(status, _) => status
    case Crash(_) => 500
  }

  datatype Model = Claude | DeepSeek

  /** One call of `callClaude`, `callDeepSeek` or `performSearch`. */
  datatype Call = ModelCall(model: Model, prompt: string) | SearchCall(query: string)

  /** The three HTTP APIs as seen by one request: what each would answer to
      a given prompt or search term. */
  datatype Network = Network(
    claude: string -> Http,
    deepSeek: string -> Http,
    tavily: string -> Http)

  /** The response together with the backend calls made, in order. */
  datatype Trace = Trace(response: Response, calls: seq<Call>)

  const MaxQueryLength := 5000
  const UnknownModel := "Unknown model selected"
  const SearchFallback := "Search completed, but no additional response from model."
  const SearchHeader := "\n\nSearch results:\n"

  /** The secret is present, not empty, and equal to the configured one. */
  predicate Authorized(req: Request, env: Env)
  {
    req.secret.Some? && req.secret.value != "" && env.authSecret == Some(req.secret.value)
  }

  /** `String(formData.get(name) || '')`. */
  function FormText(field: Option<string>): string
  {
    if field.Some? then field.value else ""
  }

  /** The characters `String.prototype.trim` removes: white space and line
      terminators. */
  predicate IsJsSpace(c: char)
  {
    || c == '\t' || c == '\n' || c == '\U{000B}' || c == '\U{000C}' || c == '\r' || c == ' '
    || c == '\U{00A0}' || c == '\U{1680}' || ('\U{2000}' <= c <= '\U{200A}')
    || c == '\U{2028}' || c == '\U{2029}' || c == '\U{202F}' || c == '\U{205F}'
    || c == '\U{3000}' || c == '\U{FEFF}'
  }

  function TrimStart(s: string): string
  {
    if s != [] && IsJsSpace(s[0]) then TrimStart(s[1..]) else s
  }

  function TrimEnd(s: string): string
  {
    if s != [] && IsJsSpace(s[|s| - 1]) then TrimEnd(s[..|s| - 1]) else s
  }

  /** `s.trim()`. */
  function Trim(s: string): string
  {
    TrimEnd(TrimStart(s))
  }

  /** Trimming keeps a contiguous piece of the input, drops only white space
      around it, and leaves no white space at either end. */
  lemma {:induction false} TrimKeepsCore(s: string)
    ensures (exists i, j :: 0 <= i <= j <= |s| && Trim(s) == s[i..j]
              && (forall k :: 0 <= k < i ==> IsJsSpace(s[k]))
              && (forall k :: j <= k < |s| ==> IsJsSpace(s[k])))
    ensures Trim(s) != [] ==> !IsJsSpace(Trim(s)[0]) && !IsJsSpace(Trim(s)[|Trim(s)| - 1])
    ensures Trim(s) == [] <==> forall k :: 0 <= k < |s| ==> IsJsSpace(s[k])
  {
    var i := TrimStartAt(s);
    var t := s[i..];
    var j := TrimEndAt(t);
    assert Trim(s) == s[i..i + j];
    forall k | i + j <= k < |s| ensures IsJsSpace(s[k]) {
      assert s[k] == t[k - i];
    }
  }

  lemma {:induction false} TrimStartAt(s: string) returns (i: nat)
    ensures i <= |s| && TrimStart(s) == s[i..]
    ensures forall k :: 0 <= k < i ==> IsJsSpace(s[k])
    ensures i < |s| ==> !IsJsSpace(s[i])
  {
    if s != [] && IsJsSpace(s[0]) {
      var i' := TrimStartAt(s[1..]);
      i := i' + 1;
      assert s[1..][i'..] == s[i..];
      forall k | 0 < k < i ensures IsJsSpace(s[k]) {
        assert s[k] == s[1..][k - 1];
      }
    } else {
      i := 0;
    }
  }

  lemma {:induction false} TrimEndAt(s: string) returns (j: nat)
    ensures j <= |s| && TrimEnd(s) == s[..j]
    ensures forall k :: j <= k < |s| ==> IsJsSpace(s[k])
    ensures 0 < j ==> !IsJsSpace(s[j - 1])
  {
    if s != [] && IsJsSpace(s[|s| - 1]) {
      j := TrimEndAt(s[..|s| - 1]);
      assert s[..|s| - 1][..j] == s[..j];
    } else {
      j := |s|;
    }
  }

  /** The POST body passes validation. */
  predicate ValidInput(model: string, queryRaw: string)
  {
    model != "" && queryRaw != "" && |queryRaw| <= MaxQueryLength
  }

  /** The backend a model name selects, if any. */
  function Selected(model: string): Option<Model>
  {
    if model == "claude" then Some(Claude)
    else if model == "deepseek" then Some(DeepSeek)
    else None
  }

  /** The backend of the re-query: Claude for `claude`, DeepSeek otherwise. */
  function Requeried(model: string): Model
  {
    if model == "claude" then Claude else DeepSeek
  }

  /** One call of `callClaude` or `callDeepSeek`; only Claude can throw. */
  function Ask(m: Model, prompt: string, env: Env, net: Network): Outcome<string>
  {
    match m
    case Claude => ClaudeReply(net.claude(prompt))
    case DeepSeek => Done(DeepSeekReply(env.deepSeekKey, net.deepSeek(prompt)))
  }

  /** The prompt of the re-query. */
  function Enriched(query: string, digest: string): string
  {
    query + SearchHeader + digest
  }

  /** The handler as a function: the response and the backend calls. */
  function Handle(req: Request, env: Env, net: Network): Trace
  {
    if !Authorized(req, env) then Trace(Redirect(env.redirectUrl), [])
    else if req.httpMethod == "GET" then Trace(Form, [])
    else if req.httpMethod == "POST" then Post(Trim(FormText(req.model)), FormText(req.query), env, net)
    else Trace(PlainText(405, "Method not allowed"), [])
  }

  /** The POST flow, after the form fields are read. */
  function Post(model: string, queryRaw: string, env: Env, net: Network): Trace
  {
    if !ValidInput(model, queryRaw) then Trace(PlainText(400, "Invalid input"), [])
    else Answer(model, Escape(queryRaw), env, net)
  }

  /** The answer to a valid POST, given the sanitised query. */
  function Answer(model: string, query: string, env: Env, net: Network): Trace
  {
    var first := FirstAnswer(model, query, env, net);
    var calls := FirstCalls(model, query);
    if first.Threw? then Trace(Crash(first.fault), calls)
    else if !ShouldTriggerSearch(first.value) then Trace(PlainText(200, Escape(first.value)), calls)
    else
      var rest := Searched(model, query, env, net);
      Trace(rest.response, calls + rest.calls)
  }

  /** The first reply: from the selected backend, or the sentinel. */
  function FirstAnswer(model: string, query: string, env: Env, net: Network): Outcome<string>
  {
    if Selected(model).Some? then Ask(Selected(model).value, query, env, net) else Done(UnknownModel)
  }

  function FirstCalls(model: string, query: string): seq<Call>
  {
    if Selected(model).Some? then [ModelCall(Selected(model).value, query)] else []
  }

  /** `reQueryResult || 'Search completed, …'` for a reply string. */
  function OrFallback(reply: string): string
  {
    if reply == "" then SearchFallback else reply
  }

  /** The search and the re-query, after a reply that triggers a search. */
  function Searched(model: string, query: string, env: Env, net: Network): Trace
  {
    var digest := SearchDigest(net.tavily(query));
    if digest.Threw? then Trace(Crash(digest.fault), [SearchCall(query)])
    else
      var m := Requeried(model);
      var prompt := Enriched(query, digest.value);
      var calls := [SearchCall(query), ModelCall(m, prompt)];
      var second := Ask(m, prompt, env, net);
      if second.Threw? then Trace(Crash(second.fault), calls)
      else Trace(PlainText(200, Escape(OrFallback(second.value))), calls)
  }

  /** The secret gate comes first: a redirect happens exactly when the
      secret is missing, empty or wrong, and nothing that is refused before
      the POST flow calls a backend. */
  lemma RequestGates(req: Request, env: Env, net: Network)
    ensures Handle(req, env, net).response.Redirect? <==> !Authorized(req, env)
    ensures !Authorized(req, env) ==> Handle(req, env, net).response == Redirect(env.redirectUrl)
    ensures Authorized(req, env) && req.httpMethod == "GET" ==> Handle(req, env, net) == Trace(Form, [])
    ensures Authorized(req, env) && req.httpMethod != "GET" && req.httpMethod != "POST" ==>
      Handle(req, env, net) == Trace(PlainText(405, "Method not allowed"), [])
    ensures (Authorized(req, env) && req.httpMethod == "POST"
             && !ValidInput(Trim(FormText(req.model)), FormText(req.query))) ==>
      Handle(req, env, net) == Trace(PlainText(400, "Invalid input"), [])
  {
  }

  /** The only status codes the handler produces, and 500 exactly on a crash. */
  lemma StatusCodes(req: Request, env: Env, net: Network)
    ensures Status(Handle(req, env, net).response) in {200, 302, 400, 405, 500}
    ensures Status(Handle(req, env, net).response) == 500 <==> Handle(req, env, net).response.Crash?
  {
  }

  /** The backend calls of one request: none unless an authorised POST with
      valid input names a known model; then the first query of the sanitised
      text to that model, and, if its reply calls for a search, one search
      for the same text and one re-query of the same model whose prompt
      starts with that text and the search-results header. */
  lemma {:induction false} CallDiscipline(req: Request, env: Env, net: Network)
    ensures var calls := Handle(req, env, net).calls;
      var model, query := Trim(FormText(req.model)), Escape(FormText(req.query));
      && |calls| <= 3
      && (calls != [] ==>
            && Authorized(req, env) && req.httpMethod == "POST"
            && ValidInput(model, FormText(req.query))
            && Selected(model).Some?
            && calls[0] == ModelCall(Selected(model).value, query))
      && (|calls| >= 2 ==> calls[1] == SearchCall(query))
      && (|calls| == 3 ==>
            && calls[2].ModelCall? && calls[2].model == Selected(model).value
            && |query + SearchHeader| <= |calls[2].prompt|
            && calls[2].prompt[..|query + SearchHeader|] == query + SearchHeader)
  {
    if Authorized(req, env) && req.httpMethod == "POST" {
      var model, raw := Trim(FormText(req.model)), FormText(req.query);
      if ValidInput(model, raw) {
        AnswerCalls(model, Escape(raw), env, net);
      }
    }
  }

  lemma {:induction false} AnswerCalls(model: string, query: string, env: Env, net: Network)
    ensures var calls := Answer(model, query, env, net).calls;
      && |calls| <= 3
      && (calls != [] ==> Selected(model).Some? && calls[0] == ModelCall(Selected(model).value, query))
      && (|calls| >= 2 ==> calls[1] == SearchCall(query))
      && (|calls| == 3 ==>
            && calls[2].ModelCall? && calls[2].model == Selected(model).value
            && |query + SearchHeader| <= |calls[2].prompt|
            && calls[2].prompt[..|query + SearchHeader|] == query + SearchHeader)
  {
    if Selected(model).None? {
      UnknownModelDoesNotTrigger();
    } else {
      var digest := SearchDigest(net.tavily(query));
      if digest.Done? {
        var prompt := Enriched(query, digest.value);
        assert prompt[..|query + SearchHeader|] == query + SearchHeader;
      }
    }
  }

  /** A model name other than `claude` and `deepseek` is answered with the
      sentinel text, unescaped because it needs no escaping, without calling
      any backend: the sentinel never triggers a search. */
  lemma UnknownModelAnswer(model: string, queryRaw: string, env: Env, net: Network)
    requires ValidInput(model, queryRaw) && Selected(model).None?
    ensures Post(model, queryRaw, env, net) == Trace(PlainText(200, "Unknown model selected"), [])
  {
    UnknownModelDoesNotTrigger();
    assert NoSpecials(UnknownModel);
    EscapeFixedPoints(UnknownModel);
  }

  /** A reply that does not call for a search is sent escaped, and the body
      decodes back to the reply; the selected backend is called once. */
  lemma DirectAnswer(model: string, query: string, env: Env, net: Network)
    requires Selected(model).Some?
    requires FirstAnswer(model, query, env, net).Done?
    requires !ShouldTriggerSearch(FirstAnswer(model, query, env, net).value)
    ensures var t := Answer(model, query, env, net);
      && t.response == PlainText(200, Escape(FirstAnswer(model, query, env, net).value))
      && Unescape(t.response.body) == FirstAnswer(model, query, env, net).value
      && t.calls == [ModelCall(Selected(model).value, query)]
  {
    UnescapeEscape(FirstAnswer(model, query, env, net).value);
  }

  /** After a search, the body is the escaped second reply, or the escaped
      fallback text when the second reply is empty; the calls are the first
      query, the search and the re-query of the same backend with the digest
      appended. */
  lemma SearchedAnswer(model: string, query: string, env: Env, net: Network)
    requires Selected(model).Some?
    requires FirstAnswer(model, query, env, net).Done?
    requires ShouldTriggerSearch(FirstAnswer(model, query, env, net).value)
    requires SearchDigest(net.tavily(query)).Done?
    requires Ask(Selected(model).value, Enriched(query, SearchDigest(net.tavily(query)).value), env, net).Done?
    ensures var m := Selected(model).value;
      var prompt := Enriched(query, SearchDigest(net.tavily(query)).value);
      var second := Ask(m, prompt, env, net).value;
      var t := Answer(model, query, env, net);
      && t.response == PlainText(200, Escape(OrFallback(second)))
      && Unescape(t.response.body) == OrFallback(second)
      && t.calls == [ModelCall(m, query), SearchCall(query), ModelCall(m, prompt)]
  {
    var m := Selected(model).value;
    var prompt := Enriched(query, SearchDigest(net.tavily(query)).value);
    SearchedTrace(model, query, env, net);
    UnescapeEscape(OrFallback(Ask(m, prompt, env, net).value));
  }

  /** The search flow of a selected backend re-queries that same backend. */
  lemma SearchedTrace(model: string, query: string, env: Env, net: Network)
    requires Selected(model).Some?
    requires SearchDigest(net.tavily(query)).Done?
    requires Ask(Selected(model).value, Enriched(query, SearchDigest(net.tavily(query)).value), env, net).Done?
    ensures var m := Selected(model).value;
      var prompt := Enriched(query, SearchDigest(net.tavily(query)).value);
      Searched(model, query, env, net)
        == Trace(PlainText(200, Escape(OrFallback(Ask(m, prompt, env, net).value))),
                 [SearchCall(query), ModelCall(m, prompt)])
  {
    assert Requeried(model) == Selected(model).value;
  }

  /** Every text body the handler sends is free of `<`, `>` and `"`. */
  lemma {:induction false} TextBodiesEscaped(req: Request, env: Env, net: Network)
    ensures var r := Handle(req, env, net).response;
      r.PlainText? ==> forall i :: 0 <= i < |r.body| ==> r.body[i] !in {'<', '>', '"'}
  {
    if Authorized(req, env) && req.httpMethod == "POST" {
      var model, raw := Trim(FormText(req.model)), FormText(req.query);
      if ValidInput(model, raw) {
        AnswerEscaped(model, Escape(raw), env, net);
      }
    }
  }

  lemma {:induction false} AnswerEscaped(model: string, query: string, env: Env, net: Network)
    ensures var r := Answer(model, query, env, net).response;
      r.PlainText? ==> forall i :: 0 <= i < |r.body| ==> r.body[i] !in {'<', '>', '"'}
  {
    var first := FirstAnswer(model, query, env, net);
    if first.Done? {
      if !ShouldTriggerSearch(first.value) {
        EscapeLeavesNoMarkup(first.value);
      } else {
        SearchedEscaped(model, query, env, net);
      }
    }
  }

  lemma {:induction false} SearchedEscaped(model: string, query: string, env: Env, net: Network)
    ensures var r := Searched(model, query, env, net).response;
      r.PlainText? ==> forall i :: 0 <= i < |r.body| ==> r.body[i] !in {'<', '>', '"'}
  {
    var digest := SearchDigest(net.tavily(query));
    if digest.Done? {
      var second := Ask(Requeried(model), Enriched(query, digest.value), env, net);
      if second.Done? {
        EscapeLeavesNoMarkup(OrFallback(second.value));
      }
    }
  }

  /** The characters of the lower-cased key-missing diagnostic. */
  const KeyMissingAlphabet: set<char> :=
    {'d', 'e', 'p', 's', 'k', 'a', 'i', 'y', 'm', 'n', 'g', 'o', 'r', 'u', 'f', ' '}

  lemma KeyMissingLetters()
    ensures forall i :: 0 <= i < |Lower(DeepSeekKeyMissing)| ==>
      Lower(DeepSeekKeyMissing)[i] in KeyMissingAlphabet
  {
  }

  /** The key-missing diagnostic never triggers a search: every phrase holds
      a character the lower-cased diagnostic lacks. */
  lemma KeyMissingDoesNotTrigger()
    ensures !ShouldTriggerSearch(DeepSeekKeyMissing)
  {
    KeyMissingLetters();
    KeyMissingGapsLeave();
    NoPhraseOverAlphabet(Lower(DeepSeekKeyMissing), KeyMissingAlphabet, KeyMissingGaps);
  }

  /** For each phrase, the index of a character the diagnostic lacks. */
  const KeyMissingGaps: seq<nat> := [4, 5, 7, 1, 2, 2, 3, 0, 10, 6, 3, 0, 3, 0, 5, 5]

  lemma KeyMissingGapsLeave()
    ensures PhrasesLeave(KeyMissingAlphabet, KeyMissingGaps)
  {
    KeywordsSpelled();
  }

  /** Without a DeepSeek key, a valid query to `deepseek` is answered with the
      key-missing diagnostic after exactly one call, whatever the network. */
  lemma DeepSeekWithoutKey(queryRaw: string, env: Env, net: Network)
    requires ValidInput("deepseek", queryRaw) && !HasKey(env.deepSeekKey)
    ensures Post("deepseek", queryRaw, env, net)
      == Trace(PlainText(200, Escape(DeepSeekKeyMissing)), [ModelCall(DeepSeek, Escape(queryRaw))])
  {
    var query := Escape(queryRaw);
    assert FirstAnswer("deepseek", query, env, net) == Done(DeepSeekKeyMissing);
    KeyMissingDoesNotTrigger();
  }

  /** DeepSeek never throws, so with `deepseek` selected the only crash is
      in the search, after the first query and the search call. */
  lemma DeepSeekOnlyCrashesInSearch(model: string, queryRaw: string, env: Env, net: Network)
    requires Selected(model) == Some(DeepSeek)
    ensures var t := Post(model, queryRaw, env, net);
      t.response.Crash? ==> |t.calls| == 2 && t.calls[1] == SearchCall(Escape(queryRaw))
  {
  }

  /** The network of one request, with a ghost log of the calls made to it. */
  class Upstream {
    const env: Env
    const net: Network
    ghost var log: seq<Call>

    constructor (env: Env, net: Network)
      ensures this.env == env && this.net == net && log == []
    {
      this.env := env;
      this.net := net;
      log := [];
    }

    /** `callClaude(prompt, env)`. */
    method CallClaude(prompt: string) returns (r: Outcome<string>)
      modifies this
      ensures r == ClaudeReply(net.claude(prompt))
      ensures log == old(log) + [ModelCall(Claude, prompt)]
    {
      r := ClaudeReply(net.claude(prompt));
      log := log + [ModelCall(Claude, prompt)];
    }

    /** `callDeepSeek(prompt, env)`. */
    method CallDeepSeek(prompt: string) returns (r: string)
      modifies this
      ensures r == DeepSeekReply(env.deepSeekKey, net.deepSeek(prompt))
      ensures log == old(log) + [ModelCall(DeepSeek, prompt)]
    {
      r := DeepSeekReply(env.deepSeekKey, net.deepSeek(prompt));
      log := log + [ModelCall(DeepSeek, prompt)];
    }

    /** `performSearch(query, env)`. */
    method PerformSearch(query: string) returns (r: Outcome<string>)
      modifies this
      ensures r == SearchDigest(net.tavily(query))
      ensures log == old(log) + [SearchCall(query)]
    {
      r := SearchDigest(net.tavily(query));
      log := log + [SearchCall(query)];
    }
  }

  /** The handler: the secret gate, then dispatch on the method. */
  method Fetch(req: Request, up: Upstream) returns (resp: Response)
    modifies up
    ensures resp == Handle(req, up.env, up.net).response
    ensures up.log == old(up.log) + Handle(req, up.env, up.net).calls
  {
    var secret := req.secret;
    if secret.None? || secret.value == "" || up.env.authSecret != Some(secret.value) {
      return Redirect(up.env.redirectUrl);
    }
    if req.httpMethod == "GET" {
      return Form;
    }
    if req.httpMethod == "POST" {
      var model := Trim(FormText(req.model));
      var queryRaw := FormText(req.query);
      resp := HandlePost(model, queryRaw, up);
      return;
    }
    return PlainText(405, "Method not allowed");
  }

  /** The POST branch: validation, the first query, and the search when the
      reply calls for one. */
  method HandlePost(model: string, queryRaw: string, up: Upstream) returns (resp: Response)
    modifies up
    ensures resp == Post(model, queryRaw, up.env, up.net).response
    ensures up.log == old(up.log) + Post(model, queryRaw, up.env, up.net).calls
  {
    if model == "" || queryRaw == "" || |queryRaw| > MaxQueryLength {
      return PlainText(400, "Invalid input");
    }
    var query := Escape(queryRaw);
    var first := FirstReply(model, query, up);
    if first.Threw? {
      return Crash(first.fault);
    }
    var resultText := first.value;
    if !ShouldTriggerSearch(resultText) {
      return PlainText(200, Escape(resultText));
    }
    resp := SearchAndRequery(model, query, up);
    ghost var rest := Searched(model, query, up.env, up.net).calls;
    AppendAssoc(old(up.log), FirstCalls(model, query), rest);
  }

  /** Concatenation is associative: regrouping the calls of a request. */
  lemma AppendAssoc<T>(a: seq<T>, b: seq<T>, c: seq<T>)
    ensures a + b + c == a + (b + c)
  {
  }

  /** The first query: the backend the model name selects, or the sentinel
      text for any other name. */
  method FirstReply(model: string, query: string, up: Upstream) returns (r: Outcome<string>)
    modifies up
    ensures r == FirstAnswer(model, query, up.env, up.net)
    ensures up.log == old(up.log) + FirstCalls(model, query)
  {
    if model == "claude" {
      r := up.CallClaude(query);
    } else if model == "deepseek" {
      var text := up.CallDeepSeek(query);
      r := Done(text);
    } else {
      r := Done(UnknownModel);
    }
  }

  /** The search and the second query; `finalText` is what is shown. */
  method SearchAndRequery(model: string, query: string, up: Upstream) returns (resp: Response)
    modifies up
    ensures resp == Searched(model, query, up.env, up.net).response
    ensures up.log == old(up.log) + Searched(model, query, up.env, up.net).calls
  {
    var searchResults := up.PerformSearch(query);
    if searchResults.Threw? {
      return Crash(searchResults.fault);
    }
    var enriched := query + SearchHeader + searchResults.value;
    var reQueryResult := Requery(model, enriched, up);
    assert up.log == old(up.log) + [SearchCall(query), ModelCall(Requeried(model), enriched)];
    if reQueryResult.Threw? {
      return Crash(reQueryResult.fault);
    }
    var finalText := if reQueryResult.value == "" then SearchFallback else reQueryResult.value;
    return PlainText(200, Escape(finalText));
  }

  /** The second query: Claude when the model name is `claude`, DeepSeek for
      any other name (the sentinel case included). */
  method Requery(model: string, prompt: string, up: Upstream) returns (r: Outcome<string>)
    modifies up
    ensures r == Ask(Requeried(model), prompt, up.env, up.net)
    ensures up.log == old(up.log) + [ModelCall(Requeried(model), prompt)]
  {
    if model == "claude" {
      r := up.CallClaude(prompt);
    } else {
      var text := up.CallDeepSeek(prompt);
      r := Done(text);
    }
  }
}
