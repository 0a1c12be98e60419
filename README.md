# A verified model of the chatbot worker

The worker (`cfworker-sep25/worker.js`) is a single HTTP handler. It serves a
chat form, and it answers a posted query in these steps:

1. It checks a shared secret.
2. It HTML-escapes the query and asks one of two language-model backends
   (Claude or DeepSeek).
3. If the reply reads like an admission that the model lacks information, it
   runs one web search (Tavily) for the same query.
4. In that case it asks the same model a second time, with the search digest
   appended.
5. It returns the final text, HTML-escaped, as plain text.

This project models the handler and its helpers in Dafny and proves what they
promise. The modules are:

- `Js` — the slice of JavaScript the worker relies on:
  - parsed JSON values and truthiness;
  - property reads, with and without optional chaining;
  - the text a template literal inserts;
  - `String.prototype.includes`.
- `Html` — `sanitize` and `escapeHtml`. These are the same single-pass
  replacement of `<`, `>`, `&` and `"`, so both are `Escape`. `Unescape` is
  its inverse, used to state that escaping loses nothing.
- `SearchTrigger` — `shouldTriggerSearch`: a case-insensitive match against
  sixteen fixed phrases.
- `Backends` — how each backend's HTTP answer becomes a reply:
  - `ClaudeReply` for `callClaude`, which can throw;
  - `DeepSeekReply` for `callDeepSeek`, which turns every failure into a
    diagnostic string;
  - `SearchDigest` for `performSearch`, which can throw and does not look at
    the HTTP status.
- `Worker` — the handler as a whole:
  - `Handle` states the whole request flow as a function of the request, the
    configuration and what each backend would answer. It returns the
    response and the backend calls made, in order.
  - `Upstream` is the network as an object; its ghost `log` records every
    call.
  - `Fetch` and its helper methods are the handler step by step. Each is
    proved to produce `Handle`'s response and to append exactly `Handle`'s
    calls to the log.

An exception that escapes to the handler's `catch` is modelled as
`Threw(fault)`, and the handler answers it with `Crash` (status 500).

Only `callDeepSeek` catches its failures (worker.js:182-230). `callClaude`
has no `try`, and lets these escape to the 500 handler:

- a network failure;
- a body that is not JSON;
- a `null` body;
- a `null` content block;
- an error message that cannot be printed, such as an object with its own
  `toString` key.

`ClaudeReply` returns `Outcome<string>` for that reason, and
`DeepSeekOnlyCrashesInSearch` states the DeepSeek side of the asymmetry.

## Model

| member | source | states |
|---|---|---|
| Js.Render | cfworker-sep25/worker.js:163 | Defines the text a template literal inserts for a value that `Printable` admits: `undefined`, `null`, booleans, integers, strings as they are, arrays joined by commas, and `[object Object]`. ClaudeErrorStatus, DeepSeekFailureTexts and ResultLinesKeepAll state where it is used. |
| Js.Printable | cfworker-sep25/worker.js:207 | Defines when `${v}` yields text: an object must not have its own `toString` key, and an array's elements must all be printable. Otherwise JavaScript throws a `TypeError`, which ClaudeErrorStatus, DeepSeekFailureTexts and ResultLinesKeepAll state. |
| Js.Get | cfworker-sep25/worker.js:167 | An object's own key yields its stored value, and a missing key yields `undefined`. The `length` of an array or string is its element or character count. A boolean or number has no properties. |
| Js.Chain | cfworker-sep25/worker.js:206 | Optional chaining on `null` or `undefined` yields `undefined`. On any other value it is the plain property read. |
| Js.NumberText | cfworker-sep25/worker.js:163 | The status inserted into a message is a decimal numeral that reads back as the status. It has no leading zero, and a leading `-` only for negatives. |
| Js.NatTextValue | cfworker-sep25/worker.js:207 | Reading back the digits printed for a number gives the number. |
| Html.Escape | cfworker-sep25/worker.js:138-144 | Defines `sanitize` and `escapeHtml`: one left-to-right pass that replaces each special character by its entity. UnescapeEscape, EscapeLeavesNoMarkup and EscapeAppend characterise it. |
| Html.Entity | cfworker-sep25/worker.js:139 | Exactly the four special characters are replaced, each by an entity that starts with `&` and ends with `;`. Every other character is kept. |
| Html.EscapeLeavesNoMarkup | cfworker-sep25/worker.js:142-144 | Escaped text contains no `<`, `>` or `"`. |
| Html.EscapeHasNoTag | cfworker-sep25/worker.js:55 | No tag, such as `<script>`, occurs in an escaped reply. |
| Html.EscapeAppend | cfworker-sep25/worker.js:138-140 | Escaping works character by character, so it distributes over concatenation. |
| Html.EscapeFixedPoints | cfworker-sep25/worker.js:138-140 | Escaping never shortens a string. It leaves a string unchanged exactly when the string has no special character. |
| Html.UnescapeEscape | cfworker-sep25/worker.js:142-144 | Decoding the four entities recovers the original text, so escaping loses nothing. |
| Html.EscapeNotIdempotent | cfworker-sep25/worker.js:138-144 | Escaping twice differs from escaping once: `&` becomes `&amp;` and then `&amp;amp;`. |
| SearchTrigger.Lower | cfworker-sep25/worker.js:65 | Lower-casing keeps the length and leaves no capital letter. Every other character is kept, and each capital becomes its small letter. |
| SearchTrigger.Upper | cfworker-sep25/worker.js:65 | Upper-casing keeps the length and leaves no small letter. Every other character is kept, and each small letter becomes its capital. |
| SearchTrigger.CaseFolding | cfworker-sep25/worker.js:65 | Lower-casing is idempotent, and upper-casing first makes no difference to it. |
| SearchTrigger.LowerAppend | cfworker-sep25/worker.js:65 | Lower-casing works character by character, so it distributes over concatenation. |
| SearchTrigger.ShouldTriggerSearch | cfworker-sep25/worker.js:62-86 | Defines the trigger: some phrase of `Keywords` occurs in the lower-cased reply, and the empty reply never triggers. ShouldTriggerSplits characterises it. |
| SearchTrigger.ShouldTriggerSplits | cfworker-sep25/worker.js:62-86 | The search triggers exactly when the lower-cased reply is some text, then one of the listed phrases, then some more text. |
| SearchTrigger.TriggerIgnoresCase | cfworker-sep25/worker.js:65 | An upper-cased reply triggers exactly when the reply does. |
| SearchTrigger.TriggerInContext | cfworker-sep25/worker.js:85 | A triggering reply still triggers with any text before and after it. |
| SearchTrigger.NoPhraseOverAlphabet | cfworker-sep25/worker.js:66-85 | No phrase occurs in a text whose characters all come from an alphabet that every phrase leaves, at a given index of each phrase. The unknown-model sentinel and the key-missing diagnostic use it. |
| SearchTrigger.UnknownModelDoesNotTrigger | cfworker-sep25/worker.js:35 | `Unknown model selected` never triggers a search. |
| SearchTrigger.DisclaimerTriggers | cfworker-sep25/worker.js:68 | `I don't have access to real-time data` triggers a search, despite its capital letter. |
| Backends.OrElse | cfworker-sep25/worker.js:163 | `a \|\| fallback` gives the text of `a` when `a` is truthy, and the fallback otherwise. |
| Backends.ClaudeReply | cfworker-sep25/worker.js:145-172 | Defines what `callClaude` returns or throws for what its request yields. ClaudeErrorStatus and ClaudeFirstText characterise it. |
| Backends.FindTextBlock | cfworker-sep25/worker.js:170-171 | Defines `content.find(...)`, which throws on a `null` block. FindTextBlockFirst characterises it. |
| Backends.FindTextBlockFirst | cfworker-sep25/worker.js:170-171 | `find` returns the text of the first text block when every earlier block is passed over. It throws exactly when a `null` block comes first. It finds nothing exactly when every block is passed over. |
| Backends.ClaudeErrorStatus | cfworker-sep25/worker.js:161-164 | For an error status and a parsed body other than `null`, a truthy, printable `error.message` gives `Claude API error <status>: <message>`. A truthy message that cannot be printed throws. Otherwise the whole serialised body follows the prefix. |
| Backends.UnprintableErrorMessage | cfworker-sep25/worker.js:163 | For status 500 and the body `{"error":{"message":{"toString":1}}}`, `callClaude` throws, and `callDeepSeek` answers `DeepSeek call exception: ` with the `TypeError` text (worker.js:207, 227-229). |
| Backends.ClaudeFirstText | cfworker-sep25/worker.js:166-171 | A successful response yields the first text block's text, provided every earlier block is passed over. It yields `No response from Claude` when the content is missing or not an array, or when every block is passed over. |
| Backends.DeepSeekReply | cfworker-sep25/worker.js:174-231 | Defines what `callDeepSeek` returns; it never throws. DeepSeekFailureTexts, DeepSeekReturnsContent and Worker.DeepSeekWithoutKey characterise it. |
| Backends.DeepSeekContent | cfworker-sep25/worker.js:210-226 | Defines the checks on a successful body, in the worker's order. DeepSeekReturnsContent characterises it against the `ContentPath` reference. |
| Backends.DeepSeekReturnsContent | cfworker-sep25/worker.js:210-226 | A successful response yields `choices[0].message.content` when it is a string. A falsy body, or missing or empty `choices`, gives `No response from DeepSeek`. A falsy first choice or message gives the missing-message text. Content that is not a string gives the invalid-content text. |
| Backends.DeepSeekFailureTexts | cfworker-sep25/worker.js:196-207 | With a key, an exception yields `DeepSeek call exception: ` and its text (worker.js:227-229). A body that is not JSON yields the parse diagnostic, whatever the status. An error status yields `DeepSeek API error <status>: ` followed by `error.message`, else `message`, else the whole serialised body. When the chosen message cannot be printed, the `TypeError` is caught and yields the exception text instead. |
| Backends.SearchDigest | cfworker-sep25/worker.js:234-243 | Defines what `performSearch` returns or throws; it does not look at the status. SearchDigestShape characterises it. |
| Backends.Line | cfworker-sep25/worker.js:242 | Defines the line `${r.title}: ${r.content}` of one result. ResultLinesKeepAll places it in the digest. |
| Backends.Mappable | cfworker-sep25/worker.js:242 | Defines when the `map` callback returns for a result: the result is not `null`, and its `title` and `content` are printable. |
| Backends.ResultLines | cfworker-sep25/worker.js:242 | Defines `results.map(...)`. ResultLinesKeepAll characterises it. |
| Backends.ResultLinesKeepAll | cfworker-sep25/worker.js:242 | Mapping the results keeps every result, in order, as `title: content`. It throws exactly when some result is `null` or has a `title` or `content` that cannot be printed. The fault is that of the first such result. |
| Backends.JoinLines | cfworker-sep25/worker.js:242 | Defines `join('\n')`. JoinLinesSnoc characterises it. |
| Backends.JoinLinesSnoc | cfworker-sep25/worker.js:242 | Joining puts each further line after a newline. |
| Backends.SearchDigestShape | cfworker-sep25/worker.js:241-242 | The digest is `No search results` for missing, falsy or empty results. For a non-empty array it is every result's line in order, joined by newlines. It fails exactly when some result does not map: a `null` result, or a `title` or `content` that cannot be printed. |
| Worker.Trim | cfworker-sep25/worker.js:18 | Defines `trim()` over JavaScript's white-space set. TrimKeepsCore characterises it. |
| Worker.TrimKeepsCore | cfworker-sep25/worker.js:18 | Trimming keeps a contiguous slice of the input and removes only white space around it. It leaves no white space at either end, and it yields the empty string exactly for all-white-space input. |
| Worker.Authorized | cfworker-sep25/worker.js:6 | Defines the secret gate: the secret is present, not empty, and equal to the configured one. RequestGates ties it to the redirect. |
| Worker.ValidInput | cfworker-sep25/worker.js:20 | Defines the input check: a non-empty model, and a non-empty query of at most 5000 characters. RequestGates ties it to the 400. |
| Worker.Handle | cfworker-sep25/worker.js:2-95 | Defines the handler as a function of the request, the configuration and the backends: the response and the calls, in order. RequestGates, StatusCodes, CallDiscipline and TextBodiesEscaped characterise it, and Fetch is proved to follow it. |
| Worker.Post | cfworker-sep25/worker.js:16-58 | Defines the POST flow: validate, sanitise, answer. DeepSeekWithoutKey and CallDiscipline state cases of it. |
| Worker.Answer | cfworker-sep25/worker.js:24-55 | Defines the answer to a valid POST: the first reply, then either the escaped reply or the search flow. DirectAnswer, UnknownModelAnswer, AnswerCalls and AnswerEscaped characterise it. |
| Worker.FirstAnswer | cfworker-sep25/worker.js:26-36 | Defines the first reply: the selected backend's answer, or the unknown-model sentinel. |
| Worker.Ask | cfworker-sep25/worker.js:29-32 | Defines one call of `callClaude` or `callDeepSeek` through the backend oracles. |
| Worker.Enriched | cfworker-sep25/worker.js:46 | Defines the re-query prompt: the query, the search-results header and the digest. |
| Worker.Searched | cfworker-sep25/worker.js:40-55 | Defines the search and the re-query. SearchedAnswer and SearchedEscaped characterise it. |
| Worker.OrFallback | cfworker-sep25/worker.js:52 | Defines `reQueryResult \|\| 'Search completed, …'` for a reply string. SearchedAnswer states it in the response. |
| Worker.RequestGates | cfworker-sep25/worker.js:5-22 | A redirect happens exactly when the secret is missing, empty or wrong. GET gives the form, other methods besides POST give 405, and invalid input gives 400. None of these calls a backend. |
| Worker.StatusCodes | cfworker-sep25/worker.js:5-94 | The status is one of 200, 302, 400, 405 and 500, and it is 500 exactly on an escaped exception. |
| Worker.CallDiscipline | cfworker-sep25/worker.js:16-53 | A request makes at most three backend calls, and only when it is an authorised, valid POST naming a known model. The calls are the sanitised query to that model, then possibly one search for the same text, then possibly one re-query of the same model whose prompt starts with the query and the search-results header. |
| Worker.AnswerCalls | cfworker-sep25/worker.js:24-53 | The same call sequence, stated for the answer to an already sanitised query. |
| Worker.UnknownModelAnswer | cfworker-sep25/worker.js:33-40 | An unknown model name is answered with exactly `Unknown model selected` and no backend call. |
| Worker.DirectAnswer | cfworker-sep25/worker.js:26-40 | When the reply does not trigger a search, the 200 body is the escaped reply, so it decodes back to the reply. The selected backend is called once. |
| Worker.SearchedAnswer | cfworker-sep25/worker.js:40-55 | After a search, the 200 body is the escaped second reply, or the escaped fallback text when that reply is empty. The calls are first query, search, and re-query with the digest appended. |
| Worker.SearchedTrace | cfworker-sep25/worker.js:40-55 | For a selected backend, the search flow re-queries that same backend with the enriched prompt, then answers with the escaped reply or fallback, after exactly the search call and the re-query. |
| Worker.TextBodiesEscaped | cfworker-sep25/worker.js:55 | No text body the handler sends contains `<`, `>` or `"`. |
| Worker.AnswerEscaped | cfworker-sep25/worker.js:39-55 | The answer to a valid POST contains no `<`, `>` or `"`. |
| Worker.SearchedEscaped | cfworker-sep25/worker.js:46-55 | The answer after a search contains no `<`, `>` or `"`. |
| Worker.KeyMissingDoesNotTrigger | cfworker-sep25/worker.js:179 | The key-missing diagnostic never triggers a search. |
| Worker.DeepSeekWithoutKey | cfworker-sep25/worker.js:176-180 | Without a DeepSeek key, a valid query to `deepseek` is answered with the escaped key-missing diagnostic after exactly one call, whatever the network would answer. |
| Worker.DeepSeekOnlyCrashesInSearch | cfworker-sep25/worker.js:174-231 | With DeepSeek selected, a 500 can only come from the search: both model calls return text. |
| Worker.Upstream.constructor | cfworker-sep25/worker.js:2 | A fresh network object holds the configuration and the backends, and has an empty call log. |
| Worker.Upstream.CallClaude | cfworker-sep25/worker.js:145-172 | Returns the Claude reply for what the backend answers to the prompt, and logs exactly that one call. |
| Worker.Upstream.CallDeepSeek | cfworker-sep25/worker.js:174-231 | Returns the DeepSeek reply for what the backend answers to the prompt, and logs exactly that one call. |
| Worker.Upstream.PerformSearch | cfworker-sep25/worker.js:234-243 | Returns the search digest for what the backend answers to the query, and logs exactly that one call. |
| Worker.Fetch | cfworker-sep25/worker.js:2-95 | The handler's response is the one `Handle` specifies, and the calls it makes are exactly `Handle`'s, in order. |
| Worker.HandlePost | cfworker-sep25/worker.js:16-58 | The POST branch produces the response and the calls that `Post` specifies. |
| Worker.FirstReply | cfworker-sep25/worker.js:26-36 | The first query goes to the backend the model name selects, or yields the sentinel without a call. |
| Worker.SearchAndRequery | cfworker-sep25/worker.js:40-53 | The search and the re-query produce the response and the calls that `Searched` specifies. |
| Worker.Requery | cfworker-sep25/worker.js:49 | The re-query goes to Claude when the model name is `claude`, and to DeepSeek otherwise. |

## Left out

- `getHtml` and the page's script: the form page is the constant response `Form`. Its markup is not modelled.
- `console.log` calls: logging has no effect on any response.
- Parsing the request URL and the form body. A `Request` holds the method, the `secret` parameter and the two form fields, each either present as text or absent. A form value that is a file, and a `formData()` that rejects, are not modelled.
- Response headers (`Content-Type`), and whether `redirect_url` is a valid URL for `Response.redirect`.
- The text of the 500 body. A crash records which kind of exception escaped, and the body text the runtime would produce for it is not modelled.
- The outbound requests. The endpoints, headers, API keys for Claude and Tavily, model names, `max_tokens` and `max_results` are not modelled. Each backend is a function from the prompt or search term to what the request yields.
- The text of a `fetch` or JSON parser error is a parameter. `JSON.stringify` output is carried alongside each parsed body rather than computed.
- The text of the `TypeError` for a value that cannot be printed is V8's message, a constant. Other runtimes word it differently.
- Numbers in parsed JSON are integers only. Fractions, exponents and their printing are not modelled.
- Backends.SearchDigest: a `results.length` that is neither a number nor a boolean is treated as not positive. This differs from JavaScript only for a string or array that converts to a positive number, such as `"5"` or `[5]`. There `length > 0` holds, and the `.map` call then throws. An object converts to NaN and gives `No search results`, as in the model.
- SearchTrigger.Lower: only ASCII letters change case. JavaScript's full Unicode case mapping is not modelled.
- Worker.ValidInput: the 5000 limit counts characters, not UTF-16 code units.
- Concurrency and the asynchronous runtime: each request is handled on its own, and the awaited calls run in program order.
