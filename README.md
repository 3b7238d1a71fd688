# Custom API content generator, modelled in Dafny

This project models the vendor-protocol adapter of the CLI's core package. The adapter lets the
CLI talk to any chat-completion endpoint in the common "OpenAI-compatible" format. It is
`packages/core/src/providers/customApiContentGenerator.ts`, class `CustomApiContentGenerator`.
The adapter:

- translates the CLI's request contents (in any of the shapes callers pass) into vendor chat
  messages, and its tool groups into a flat `functions` list;
- translates a vendor reply into the CLI's single-candidate response, with its `text` and
  `functionCalls` accessors;
- rebuilds a streamed reply from server-sent `data:` lines, carrying partial lines between reads
  and accumulating text and function-call fragments into a full snapshot per event;
- learns from vendor error bodies that a model does not take tool definitions, and stops sending
  them;
- validates its configuration, counts or estimates tokens, diagnoses its configuration, and
  lists the vendor's models through a cache.

The modules follow the adapter's structure:

| module | what it holds |
|---|---|
| `Wrappers` | `Option` and `Result` |
| `JsonModel` | JSON values; parse and stringify as a pair of functions the caller supplies |
| `TextUtil` | `join`, one-character `split` with its round trip and its behaviour on concatenation, `includes`, decimal rendering with its inverse |
| `Canonical` | parts, contents, the loose request shapes and their normalisation |
| `RequestTranslation` | the message fold as specification functions, and the two loops of the converter as methods proved against them |
| `ToolDeclarations` | flattening of tool groups |
| `ResponseTranslation` | the reply conversion and its accessors |
| `StreamReconstruction` | the streaming state machine (class `StreamReconstructor` with the three variables the loop mutates) and its specification |
| `Capabilities` | the error-text predicate and the per-model "supports tools" map |
| `Provider` | construction, request building, and the two generate calls |
| `TokenCount` | text extraction, the tokenizer reply and the estimate |
| `ConfigurationCheck` | the configuration diagnosis |
| `ModelDiscovery` | model-list mapping, fallback and cache |

All network exchanges are inputs. A reply is given as a value: a status and body, a decoded
body, or a list of stream reads. JSON decoding and encoding are functions passed in.

## Model

Every member below models part of `packages/core/src/providers/customApiContentGenerator.ts`.

| member | source | states |
|---|---|---|
| Canonical.Normalize | packages/core/src/providers/customApiContentGenerator.ts:124-145 | a string is one user turn with one text part; a non-empty string array is one user turn with a text part per string, in order; an array led by an object with `text` is one user turn with those parts; any other array is the turns themselves; a single object is a turn if it has `role`, checked before `text`, else a one-part user turn if it has `text`; anything else gives no turns |
| Canonical.ShorthandsMatchContentArray | packages/core/src/providers/customApiContentGenerator.ts:124-145 | every shorthand shape (a string, a non-empty array of strings, an array of parts led by a part with `text`, a single content, a single part) normalises to the list that the explicit one-element array of its turn gives |
| Canonical.PartArrayLedByNonText | packages/core/src/providers/customApiContentGenerator.ts:131-138 | an array of parts whose first part has no `text` is read as turns, and every turn then has no parts, so the parts are lost |
| RequestTranslation.WireRole | packages/core/src/providers/customApiContentGenerator.ts:149 | the vendor role is `assistant` exactly for `model` (or `assistant`), and only `model` is changed |
| RequestTranslation.ScanParts | packages/core/src/providers/customApiContentGenerator.ts:155-173 | the inner loop yields the turn's text pieces in order (non-empty texts, placeholders for inline data), the last function call serialised, and the last function response |
| RequestTranslation.ConvertTurn | packages/core/src/providers/customApiContentGenerator.ts:149-192 | the message built for one turn is the one the fold specification gives |
| RequestTranslation.ConvertToMessages | packages/core/src/providers/customApiContentGenerator.ts:120-196 | the messages built are those of the normalised turns, each turn contributing its message in order |
| RequestTranslation.FoldContentRules | packages/core/src/providers/customApiContentGenerator.ts:151-192 | a turn without parts gives nothing; any function response makes a `function` message with the last response's name and serialised body, discarding text; otherwise the role is mapped, the call is the last one, the content is the text pieces joined by a newline, a turn with neither gives nothing, and a plain text message is never empty |
| RequestTranslation.LastResponseIsLast | packages/core/src/providers/customApiContentGenerator.ts:167-168 | the response kept is a response part with none after it, and there is none exactly when no part is a response |
| RequestTranslation.LastCallIsLast | packages/core/src/providers/customApiContentGenerator.ts:162-166 | the call kept is a call part with none after it, and there is none exactly when no part is a call |
| RequestTranslation.TextsOfPieces | packages/core/src/providers/customApiContentGenerator.ts:160-172 | at most one text piece per part, none of them empty, and none at all exactly when every part is a call, a response or contributes nothing |
| RequestTranslation.TextsOfAppend | packages/core/src/providers/customApiContentGenerator.ts:159-173 | the text pieces of two part lists are those of the first followed by those of the second |
| RequestTranslation.MessagesAppend | packages/core/src/providers/customApiContentGenerator.ts:148-193 | the messages of two turn lists are those of the first followed by those of the second |
| RequestTranslation.AtMostOneMessagePerTurn | packages/core/src/providers/customApiContentGenerator.ts:148-193 | there are never more messages than turns |
| ToolDeclarations.Declared | packages/core/src/providers/customApiContentGenerator.ts:202-210 | a group without `functionDeclarations` contributes nothing; otherwise each declaration becomes its name, description and parameters, in order |
| ToolDeclarations.ConvertTools | packages/core/src/providers/customApiContentGenerator.ts:198-199 | there is a list exactly when tools were given, and it is every group's declarations flattened in order |
| ToolDeclarations.FlattenAppend | packages/core/src/providers/customApiContentGenerator.ts:201-212 | flattening keeps group order: the list for two group lists is the first's followed by the second's |
| ToolDeclarations.FlattenLength | packages/core/src/providers/customApiContentGenerator.ts:201-212 | the list has as many functions as the groups declare |
| ToolDeclarations.FlattenMembership | packages/core/src/providers/customApiContentGenerator.ts:201-212 | a function is in the list exactly when some group declares it |
| ToolDeclarations.RequestFunctions | packages/core/src/providers/customApiContentGenerator.ts:319-321 | no `functions` field when the model is believed not to take tools; otherwise exactly the converted tools, one function per declaration |
| ResponseTranslation.ConvertResponse | packages/core/src/providers/customApiContentGenerator.ts:215-263 | fails exactly when there is no choice or the call arguments are not JSON; otherwise there is one `model` candidate at index 0 with the finish reason, usage exactly when the reply has usage and with the reply's three counts, parts that are a text part for non-empty content followed by a call part for the call and nothing else, `text` equal to the content when non-empty, and `functionCalls` equal to the reply's call with parsed arguments |
| ResponseTranslation.PresentCallsAreTheCallParts | packages/core/src/providers/customApiContentGenerator.ts:276-284 | the `functionCalls` accessor (`ResponseTranslation.ResponseFunctionCalls`) lists exactly the parts' calls, and is absent exactly when no part has one |
| ResponseTranslation.PresentCallsAppend | packages/core/src/providers/customApiContentGenerator.ts:276-284 | the calls of two runs of parts are those of the first followed by those of the second, so order is kept |
| ResponseTranslation.PresentTextsEmpty | packages/core/src/providers/customApiContentGenerator.ts:266-274 | the `text` accessor (`ResponseTranslation.ResponseText`, the first candidate's texts joined) is absent exactly when no part has a `text` |
| ResponseTranslation.ConvertedTurn | packages/core/src/providers/customApiContentGenerator.ts:218-232 | a translated reply's turn is the `model` turn of the text part and the parsed call part |
| ResponseTranslation.ReplyTurnRoundTrip | packages/core/src/providers/customApiContentGenerator.ts:218-232 | such a turn sent back as history is one `assistant` message with the content and the original call, or nothing when both are empty |
| ResponseTranslation.ReplyRoundTrip | packages/core/src/providers/customApiContentGenerator.ts:218-232 | a translated reply sent back as history becomes one `assistant` message with the reply's content and call, or nothing for an empty reply, when re-serialising the parsed arguments reproduces them |
| StreamReconstruction.Accumulate | packages/core/src/providers/customApiContentGenerator.ts:432-447 | the accumulators only grow; text gains the delta's text; the call name is replaced only by a non-empty name; the argument text gains the delta's arguments |
| StreamReconstruction.Snapshot | packages/core/src/providers/customApiContentGenerator.ts:449-476 | no snapshot exactly when a named call's arguments are not JSON; otherwise one `model` candidate at index 0 with the finish reason, whose parts are a text part for non-empty accumulated text followed by a call part when the call has a name, and nothing else, `text` equal to the accumulated text when non-empty, and a call exactly when the name is non-empty, with arguments `{}` while none have arrived |
| StreamReconstruction.Step | packages/core/src/providers/customApiContentGenerator.ts:424-447 | a line that is not data, is `[DONE]`, does not decode or has no choice changes nothing and yields nothing; any other line applies its delta and yields the snapshot of the whole new state with the line's finish reason, or nothing when the arguments do not parse |
| StreamReconstruction.Remainder | packages/core/src/providers/customApiContentGenerator.ts:420-421 | the carried text holds no newline |
| StreamReconstruction.ProcessLinesAppend | packages/core/src/providers/customApiContentGenerator.ts:423-542 | handling two runs of lines in turn is handling them as one run |
| StreamReconstruction.ProcessLinesGrows | packages/core/src/providers/customApiContentGenerator.ts:432-447 | over any number of lines the accumulators only grow |
| StreamReconstruction.IgnoredLineIsTransparent | packages/core/src/providers/customApiContentGenerator.ts:426-431 | an ignored or malformed line inside a stream leaves the rest of the stream's outcome as if it were absent |
| StreamReconstruction.AccumulatedTextIsDeltaTexts | packages/core/src/providers/customApiContentGenerator.ts:432-434 | the accumulated text is the concatenation of every handled line's delta text, in order |
| StreamReconstruction.LastSnapshotIsWholeState | packages/core/src/providers/customApiContentGenerator.ts:449-476 | when the last line is handled and its arguments parse, the last snapshot is that of the whole state, and its `text` is all the text accumulated so far, not the last delta |
| StreamReconstruction.TextDeltasAccumulate | packages/core/src/providers/customApiContentGenerator.ts:432-476 | deltas `Hel` then `lo` yield two snapshots, reading `Hel` and then `Hello` |
| StreamReconstruction.CompleteLinesAppend | packages/core/src/providers/customApiContentGenerator.ts:419-421 | the lines completed by two texts are those of the first followed by those of its tail joined to the second |
| StreamReconstruction.ChunkBoundaries | packages/core/src/providers/customApiContentGenerator.ts:415-426 | two reads give the state and snapshots that one read of their concatenation gives |
| StreamReconstruction.FeedAllIsOneFeed | packages/core/src/providers/customApiContentGenerator.ts:415-426 | any split of the stream into reads gives what one read of all of it gives |
| StreamReconstruction.StreamOutcome | packages/core/src/providers/customApiContentGenerator.ts:415-543 | a stream yields the snapshots of its complete lines handled in order from empty accumulators, and ends holding the text after the last newline |
| StreamReconstruction.UnterminatedTailIsDropped | packages/core/src/providers/customApiContentGenerator.ts:416-421 | a final read without a newline adds no snapshot and changes no accumulator |
| StreamReconstruction.StreamReconstructor.constructor | packages/core/src/providers/customApiContentGenerator.ts:410-413 | an empty buffer and no accumulated text or call |
| StreamReconstruction.StreamReconstructor.ApplyDelta | packages/core/src/providers/customApiContentGenerator.ts:432-447 | the three variables are updated as `Accumulate` specifies, the buffer untouched |
| StreamReconstruction.StreamReconstructor.HandleLine | packages/core/src/providers/customApiContentGenerator.ts:424-530 | one line changes the accumulators and yields exactly what `Step` gives |
| StreamReconstruction.StreamReconstructor.Feed | packages/core/src/providers/customApiContentGenerator.ts:419-426 | one read leaves the buffer holding no newline, and the new state and yielded snapshots are those of `FeedSpec` |
| StreamReconstruction.ReadStream | packages/core/src/providers/customApiContentGenerator.ts:415-417 | the snapshots yielded over all reads are those of the complete lines of the concatenated text |
| Capabilities.RecordErrorResponse | packages/core/src/providers/customApiContentGenerator.ts:339-345 | a body naming one of the three fragments makes the model take no tools; any other body changes nothing; other models are untouched |
| Capabilities.LearningIsSticky | packages/core/src/providers/customApiContentGenerator.ts:394-400 | once a model takes no tools, no later error reply brings them back |
| Capabilities.OtherRepliesLeaveModelAlone | packages/core/src/providers/customApiContentGenerator.ts:394-400 | replies about other models, or with non-matching bodies, leave a model's flag as it was |
| Capabilities.DoesNotSupportFunctionSwitchesToolsOff | packages/core/src/providers/customApiContentGenerator.ts:341 | any body containing "does not support function" switches tools off for the model |
| Provider.StripTrailingSlash | packages/core/src/providers/customApiContentGenerator.ts:116 | exactly one trailing slash is removed, and a string without one is kept |
| Provider.NewAdapter | packages/core/src/providers/customApiContentGenerator.ts:107-118 | a missing or empty key fails first, then a missing or empty endpoint; otherwise the adapter keeps the key and model, the endpoint without one trailing slash, and the headers or none |
| Provider.SlashOnlyEndpointLeavesEmptyBaseUrl | packages/core/src/providers/customApiContentGenerator.ts:111-116 | an endpoint of `/` passes the check but leaves an empty base URL |
| Provider.BuildRequest | packages/core/src/providers/customApiContentGenerator.ts:313-322 | the request carries the model, the converted messages, the sampling settings, `stream: true` only for streaming, and functions only when the model is believed to take tools |
| Provider.ApiErrorMessageCarriesStatus | packages/core/src/providers/customApiContentGenerator.ts:347 | the message of a non-success reply starts `Custom API error: `, then the status in decimal digits that read back as the status, then ` - ` and the body |
| Provider.GenerateContent | packages/core/src/providers/customApiContentGenerator.ts:307-354 | a rejected reply updates the registry from its body and fails with its status and body, its message `Custom API error: <status> - <body>`; a completed one is translated, failing as the translation fails |
| Provider.GenerateContentStream | packages/core/src/providers/customApiContentGenerator.ts:362-408 | the same request with `stream: true`; a rejected reply updates the registry and fails with the `Custom API error` message; a missing body fails with `No response body`; otherwise the result is the stream's snapshots |
| Provider.HelloBecomesOneUserMessage | packages/core/src/providers/customApiContentGenerator.ts:124-125 | the request "Hello" becomes the single user message "Hello" |
| TokenCount.ExtractText | packages/core/src/providers/customApiContentGenerator.ts:550-579 | a string is counted as itself; an array element by element, joined by spaces; a single object by its text, else by the texts of those parts that have one |
| TokenCount.SingleAndArrayAgreeWhenEveryPartHasText | packages/core/src/providers/customApiContentGenerator.ts:556-578 | when every part has text, an object alone and an array of it give the same text |
| TokenCount.SingleAndArrayDifferOnPartWithoutText | packages/core/src/providers/customApiContentGenerator.ts:556-578 | a part without text is dropped for an object alone but gives an empty piece, and so an extra space, inside an array |
| TokenCount.EstimateTokens | packages/core/src/providers/customApiContentGenerator.ts:607 | the estimate is the length divided by four rounded up, and zero only for empty text |
| TokenCount.FortyCharactersAreTenTokens | packages/core/src/providers/customApiContentGenerator.ts:607 | forty characters are estimated at ten tokens |
| TokenCount.CountTokens | packages/core/src/providers/customApiContentGenerator.ts:581-612 | a tokenizer reply gives its first non-zero count, else 0; no reply gives the estimate of the extracted text; no cached tokens |
| TokenCount.EmptyReplyCountsZero | packages/core/src/providers/customApiContentGenerator.ts:595-600 | a successful reply without counts reports 0, not the estimate |
| ConfigurationCheck.CheckConfiguration | packages/core/src/providers/customApiContentGenerator.ts:736-790 | configured exactly when key and base URL are set and the probe returns 2xx or 404; a missing key, then a missing base URL, is reported without probing; 401 means an invalid key; any other status gives "API error: " and the status; a failed connection gives its message; the error message and the instructions are both present exactly when not configured |
| ConfigurationCheck.ApiErrorNamesTheStatus | packages/core/src/providers/customApiContentGenerator.ts:775-780 | two different error statuses give different messages |
| ConfigurationCheck.SlashOnlyEndpointIsReportedUnconfigured | packages/core/src/providers/customApiContentGenerator.ts:745-750 | an adapter built from the endpoint `/` is reported as having no endpoint |
| ConfigurationCheck.ConstructedAdaptersAreProbed | packages/core/src/providers/customApiContentGenerator.ts:737-751 | an adapter the constructor accepts, from any endpoint but `/`, always reaches the probe |
| ModelDiscovery.ToModelInfo | packages/core/src/providers/customApiContentGenerator.ts:691-703 | id and name fall back to each other; the provider is fixed; the entry is the default exactly when its own id is the configured model; description and strengths have defaults; the context window is the context length, else the token maximum; each capability holds unless explicitly false |
| ModelDiscovery.FallbackModels | packages/core/src/providers/customApiContentGenerator.ts:715-728 | one entry for the configured model, marked default, with provider `Custom API`, description `Custom API model`, strengths `General purpose`, both capabilities and no context window |
| ModelDiscovery.AvailableModels | packages/core/src/providers/customApiContentGenerator.ts:667-734 | a cached list is returned without a request; otherwise the mapped reply, or the fallback when there is no reply, is returned and cached under the base URL's key |
| ModelDiscovery.SecondCallIsServedFromCache | packages/core/src/providers/customApiContentGenerator.ts:669-675 | a second call returns the first call's list without a request, whatever the vendor would say |
| ModelDiscovery.EmptyListIsNotReplacedByFallback | packages/core/src/providers/customApiContentGenerator.ts:687-708 | a reply with an empty list gives an empty list, not the fallback |
| ModelDiscovery.DefaultIsTheConfiguredId | packages/core/src/providers/customApiContentGenerator.ts:695 | in a mapped list, an entry is the default exactly when its own id is the configured model |
| ModelDiscovery.NameOnlyEntryIsNeverDefault | packages/core/src/providers/customApiContentGenerator.ts:692-695 | an entry known only by a name equal to the configured model gets that id but is not the default |
| TextUtil.JoinSplit | packages/core/src/providers/customApiContentGenerator.ts:420-421 | joining the pieces of a split with the separator gives the text back |
| TextUtil.SplitAppend | packages/core/src/providers/customApiContentGenerator.ts:419-420 | splitting a concatenation fuses the last piece of the first text with the first piece of the second |
| TextUtil.DecimalRoundTrip | packages/core/src/providers/customApiContentGenerator.ts:777 | the decimal text of a status reads back as the status |

## Left out

- HTTP: `fetch`, headers, URLs and `response.json()` / `response.text()` are not modelled. Each reply is an input value.
- The retry wrapper around the plain call is not modelled. `Provider.GenerateContent` models one attempt; `utils/retry.js` is not part of this model.
- The capability registry and the model cache are shared services whose code is not part of this model. The registry is a map in which a missing model supports tools and an error body writes `false`. The cache is a map with no expiry.
- JSON: parsing and serialising are functions passed in, not an implementation. Stream chunks are decoded by a separate function, which also covers the property reads that would throw before any accumulator changes.
- `TextDecoder`: stream reads are strings, so UTF-8 decoding across read boundaries is not modelled.
- The async generator, reader suspension, debug logging and `console.error` are not modelled. A reader failure mid-stream is not modelled either; `StreamReconstruction.ReadStream` consumes every read.
- The `_toolCalls` ids built from the clock and a random number are nondeterministic and are left out. So is the aliasing of the live call accumulator into earlier snapshots' `_toolCalls`: the model's snapshots are values.
- The `data`, `executableCode` and `codeExecutionResult` getters always return `undefined` and are left out.
- `embedContent` is a network call with a fixed error fallback, and `getProviderName` returns a constant; neither is modelled.
- Arrays mixing strings and objects are left out of the input shapes, as are parts whose properties are present but `undefined`. Serialising an absent `args` or `response` is left out too.
- TokenCount.EstimateTokens: counts characters, whereas JavaScript's `length` counts UTF-16 code units.
- Canonical.Normalize: an array whose first element is a string is read as an array of strings throughout.
- The other files of the repository (the non-interactive tool executor, the non-interactive auth check, and the memory discovery tests) are not part of this model.
