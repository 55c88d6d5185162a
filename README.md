# FunctionChat-Bench core, modelled in Dafny

FunctionChat-Bench evaluates how well chat models call tools. It sends the benchmark's
requests to a model under test and caches each response as one JSON line. A judge model
then grades every answer, and the judgements are turned into report rows. This project
models four parts of that pipeline and proves properties of each.

- **The response cache loop** (`src/response_handler.py`) is modelled in
  `response_handler.dfy`. The `ResponseHandler` class has the fields
  `predict`, `batchSize`, `useAsync` and `codec`.
  - `LoadCachedResponse` and `FetchAndSave` work on a `Utils.FileStore`.
  - `ProcessBatch`, `ProcessBatchAsync` and the batch loop are methods with loops that
    change the store.
  - Each method is proved against a specification function: `RunSequential`, `Gather`,
    `RunInBatches` or `Fetch`.
  - The lemmas state the promises of the loop:
    - responses answer the requests in order;
    - batching changes nothing unless a request raises, and gathering loses only whole
      failing batches;
    - a complete cache is returned untouched;
    - the cache file always holds responses to a prefix of the requests, even after an
      exception, and a successful call returns exactly what the file holds.
- **The judge-output formatters** (`src/formatter.py`) are modelled in `formatter.dfy`.
  - `contain_is_pass` and `convert_eval_key` classify a judge's answer. The model covers
    the four response shapes it probes, the two-line window and the four-line fallback for
    the `입니다.` sign-off.
  - The two request validators are modelled: `ensure_acceptable_arguments` and
    `clean_ground_truth`, with its suffix repair.
  - Each of the three `set_report_params` builds a report dict. The `tsv_keys` of each class
    are modelled, and `to_tsv` and `get_tsv_title` are methods with loops proved against
    `Row`/`TabTerminated`.
- **The file utilities** (`src/utils.py`) are modelled in `utils.dfy`.
  - `FileStore` is a class whose `files` map (path to text) stands for the file system.
  - `is_exist_file`, `load_to_jsonl` and `save_to_jsonl` are its methods.
  - `get_output_filename`, `substitute_env_vars` and `get_env_var` are functions, with the
    environment passed in as a map.
  - The central lemma is the JSON-lines round trip: reading back what was written gives
    the same values.
- **The Bedrock adapters** (`src/bedrock_utils.py`) are modelled in `bedrock_utils.dfy`.
  The three converters are methods with loops; each is proved equal to a specification
  function.
  - The tools converter works on an `array` of tool dicts that it normalises in place.
  - The lemmas state the properties of the conversions:
    - the system prompt is folded into the first user turn only;
    - tool messages become tool results;
    - function calls and function tools are kept in order and nothing else is;
    - every emitted schema has `type` and `properties`;
    - the tools pass is idempotent;
    - the OpenAI response has exactly its three keys, with call ids defaulting to `call_<n>`.

Shared modules:
- `wrappers.dfy` holds `Option` and `Result`.
- `strings.dfy` holds Python's `str` operations as used here: `strip`, `split`, `join`,
  `replace`, `in`, `lower`, `rsplit`, `endswith`.
- `json.dfy` holds a `Json` value type and `PyError`, the Python exceptions the core can
  raise.
  - It also holds the `Codec` record, which stands for `json.dumps`, `json.loads` and
    `str()` as abstract functions.
  - The `LineSafe` predicate states the two facts the round trip needs: a dumped value has
    no line break, and loads inverts dumps.

Python's dynamic failures are modelled as `Failure(...)` values rather than excluded by
preconditions. These include a missing key, `len` of a number, `.get` on a string, and
`json.loads` of text that does not parse.

Two behaviours of the code are easy to misread, and the model states them as the code has
them:
- In sample mode, `fetch_and_save` returns the cached responses followed by the one new
  response, not the new response alone. `FetchResult` states this.
- The four-line fallback of `convert_eval_key` fires only when the two-line key is exactly
  `입니다.`. Take an answer whose last two lines are a non-empty line without a token,
  then `입니다.`. It keeps that unresolved two-line key, even when a verdict sits further
  above. `FallbackOnlyOnBoilerplate` states when the fallback fires.

## Model

| member | source | states |
|---|---|---|
| Utils.GetEnvVar | src/utils.py:14-25 | the variable's value when it is set, the default otherwise |
| Utils.PlaceholderEnd | src/utils.py:42 | a match of `\$\{([^}]+)\}` at the start of the text: it starts with `${`, has a non-empty name and ends at the first `}`; no match means no `}` after `${`, or an empty name |
| Utils.SubstituteEnvVars | src/utils.py:28-42 | `substitute_env_vars`, defined by its body as a left-to-right scan; `SubstituteWithoutPlaceholder`, `SubstituteOne`, `SubstituteEmptyName`, `CopiedCharacter` and `SubstituteWithEmptyEnvironment` state its properties |
| Utils.SubstituteWithoutPlaceholder | src/utils.py:28-42 | a text with no `${` comes back unchanged |
| Utils.SubstituteOne | src/utils.py:38-42 | `${NAME}` followed by the rest becomes the variable's value, or stays as written when it is unset, followed by the substituted rest |
| Utils.SubstituteEmptyName | src/utils.py:42 | `${}` is not a placeholder and is copied as it is |
| Utils.CopiedCharacter | src/utils.py:42 | a character where no placeholder starts is copied and scanning resumes after it |
| Utils.SubstituteWithEmptyEnvironment | src/utils.py:38-42 | with no variables set, every text comes back unchanged |
| Utils.SplitDirectory | src/utils.py:133-136 | without `/` the directory is `.`; otherwise directory + `/` + name is the path, and the name has no `/` |
| Utils.Stem | src/utils.py:137 | without `.` the name itself; otherwise the part before the last `.` |
| Utils.GetOutputFilename | src/utils.py:132-138 | the output sits beside the source: everything up to the last `/` is kept (`./` without one), then the file name without its last `.`-suffix, then `.convert.jsonl` |
| Utils.ReadLinesPieces | src/utils.py:113 | `readlines()` splits a text into pieces that concatenate back to it; every piece but the last ends with a line break, and no piece has an inner one |
| Utils.ParseLinesSucceeds | src/utils.py:113-120 | loading succeeds exactly when every line parses, and then yields one value per line, in order |
| Utils.ParseLinesKeepsFailure | src/utils.py:113-119 | the first line that fails to parse decides the error |
| Utils.JsonlTextAppend | src/utils.py:126-127 | the JSON-lines text of `xs + ys` is that of `xs` followed by that of `ys` |
| Utils.JsonlTextShape | src/utils.py:126-127 | the text is empty exactly for no values, and otherwise ends with a line break |
| Utils.DumpedLines | src/utils.py:127 | one dumped line per value, each ending with a line break |
| Utils.ReadJsonlText | src/utils.py:113 | reading the lines of written JSON-lines text gives back the dumped lines |
| Utils.JsonlRoundTrip | src/utils.py:110-127 | loading what `save_to_jsonl` wrote gives back the saved values |
| Utils.FileStore.constructor | src/utils.py:65-72 | the store holds the given files |
| Utils.FileStore.IsExistFile | src/utils.py:65-72 | true exactly for an existing non-empty file; an existing empty file is deleted, and nothing else changes |
| Utils.FileStore.LoadToJsonl | src/utils.py:110-120 | a missing file raises; otherwise the parsed lines of the file, or the first line's parse error |
| Utils.FileStore.Open | src/response_handler.py:150 | mode `'w'` truncates the file, mode `'a'` keeps it, and either creates a missing file |
| Utils.FileStore.Write | src/response_handler.py:173 | appends the text to the open file |
| Utils.FileStore.SaveToJsonl | src/utils.py:123-129 | a list replaces the file with one dumped line per item; any other value raises and leaves the files unchanged |
| ResponseHandling.Gather | src/response_handler.py:78-96 | `asyncio.gather` over one batch, defined by its body: every response, or nothing when a request raises; `GatheredBatchesArePrefix` and `ProcessBatchAsync` state its properties |
| ResponseHandling.RunSequential | src/response_handler.py:109-115 | responses answer the requests one each, in order, until the first request that raises; with no raise, every request is answered |
| ResponseHandling.RunsAgree | src/response_handler.py:109-115 | a run is fixed by its requests: two runs that answer a prefix and stop where a request raises are equal |
| ResponseHandling.RunSequentialAppend | src/response_handler.py:165-167 | running `xs + ys` runs `xs`, then `ys` only if `xs` raised nothing |
| ResponseHandling.BatchesPartition | src/response_handler.py:154-155 | the batches are non-empty consecutive slices of at most `batch_size`, all full but the last, and together they are the requests |
| ResponseHandling.SequentialBatchesAreSequential | src/response_handler.py:164-167 | batches through `process_batch` give the one-by-one run |
| ResponseHandling.GatheredBatchesArePrefix | src/response_handler.py:158-162 | gathered batches raise exactly when the one-by-one run raises; they keep a prefix of its responses, and all of them when nothing raises |
| ResponseHandling.ExecuteAnswersInOrder | src/response_handler.py:152-173 | in every mode responses answer the pending requests in order; the run raises exactly when some request raises |
| ResponseHandling.ExecuteModeIndependent | src/response_handler.py:152-173 | when no request raises, every batch size and async setting gives the one-by-one run |
| ResponseHandling.LoadCached | src/response_handler.py:44-63 | `load_cached_response`, defined by its body; `ResponseHandler.LoadCachedResponse` is proved equal to it, and `ParseLinesSucceeds`/`ParseLinesKeepsFailure` state what the parse yields |
| ResponseHandling.Fetch | src/response_handler.py:117-176 | `fetch_and_save` as a function of the files, defined by its body; `FetchResult`, `CacheStaysAligned`, `CompleteCacheIsReturned` and `FreshStart` state its properties, and `ResponseHandler.FetchAndSave` is proved equal to it |
| ResponseHandling.CompleteCacheIsReturned | src/response_handler.py:133-136 | a cache with one response per request is returned as it is, with no request sent and no file changed |
| ResponseHandling.FetchResult | src/response_handler.py:131-176 | a successful result is the cached prefix unchanged, then the responses to the requests from the start index on, in order; all of them, or in sample mode exactly one when the cache is shorter than the requests |
| ResponseHandling.FetchOutput | src/response_handler.py:131-176 | a successful result is the complete cache, or the cache followed by a run that raised nothing |
| ResponseHandling.PendingLength | src/response_handler.py:145-148 | all requests after the start index are pending; in sample mode exactly one when the start index is in range, none otherwise |
| ResponseHandling.PendingIndex | src/response_handler.py:145-148 | the j-th pending request is the request at start index + j |
| ResponseHandling.FreshStart | src/response_handler.py:131-148 | under reset, or with no usable cache file, the j-th response answers the j-th request |
| ResponseHandling.AnsweredPrefixExtends | src/response_handler.py:138-148 | cached responses to a prefix, followed by responses to the requests after it, answer a longer prefix |
| ResponseHandling.ResumeAppendsResponses | src/response_handler.py:137-176 | after the cache check the file holds the old responses followed by the new ones, together answering a prefix; other files are untouched |
| ResponseHandling.ResumeWrites | src/response_handler.py:150-173 | the one path is truncated or appended to; every other file is unchanged |
| ResponseHandling.CacheStaysAligned | src/response_handler.py:117-176 | whatever the mode, and even when a request raises, a cache file holding responses to a prefix still does afterwards; a successful call returns exactly what it holds |
| ResponseHandling.RunInBatchesKeepsFailure | src/response_handler.py:160-167 | once a batch raises, later batches are not run |
| ResponseHandling.ResponseHandler.constructor | src/response_handler.py:12-42 | the handler keeps the executor, batch size and async flag |
| ResponseHandling.ResponseHandler.LoadCachedResponse | src/response_handler.py:44-63 | the parsed cache whatever its length, or `[]` for a missing or empty file, which is deleted |
| ResponseHandling.ResponseHandler.WriteResponse | src/response_handler.py:173 | appends one JSON line for the response |
| ResponseHandling.ResponseHandler.ProcessBatch | src/response_handler.py:98-115 | returns the one-by-one run of the batch and appends a line for each response before a raise |
| ResponseHandling.ResponseHandler.ProcessBatchAsync | src/response_handler.py:78-96 | returns the gathered run; a raise discards the batch and writes none of it |
| ResponseHandling.ResponseHandler.ProcessOneBatch | src/response_handler.py:158-167 | one batch, through the synchronous or the gathered path as `use_async` says |
| ResponseHandling.ResponseHandler.ProcessBatches | src/response_handler.py:152-167 | the batches in turn, stopping at the first that raises; the file grows by the lines of the responses collected |
| ResponseHandling.ResponseHandler.FetchAndSave | src/response_handler.py:117-176 | the result and the files are those of `Fetch` |
| Formatter.ConvertEvalKey | src/formatter.py:6-66 | `convert_eval_key`, defined by its body; `UnresolvedVerdictHasNoToken`, `NoContentIsFail`, `ChoicesShadowsOthers`, `CompletionBeforeOthers`, `ResultsShadowContent`, `EmptyListsFallThrough`, `ContentTextVerdict` and `FallbackOnlyOnBoilerplate` state its properties |
| Formatter.ContainIsPass | src/formatter.py:15-28 | `pass` exactly when the key holds `pass` in any case, or holds a Korean pass token and no `fail`; `fail` exactly when it holds `fail` and not `pass`; any other result is a token-free key returned unchanged |
| Formatter.VerdictHasToken | src/formatter.py:57-66 | every text's verdict is `pass`, `fail`, or a key with no token |
| Formatter.UnresolvedVerdictHasNoToken | src/formatter.py:6-66 | a verdict other than `pass`/`fail` holds none of the tokens |
| Formatter.DecidedByLastTwoLines | src/formatter.py:57-60 | a two-line key that classifies is the verdict |
| Formatter.DecidedExample | src/formatter.py:48-60 | a `content` answer whose last two lines classify gets their classification |
| Formatter.NoContentIsFail | src/formatter.py:31-55 | a response with none of the four fields is a fail and raises nothing |
| Formatter.ContentTextVerdict | src/formatter.py:48-66 | a `content` text is classified by its last lines |
| Formatter.ChoicesShadowsOthers | src/formatter.py:34-36 | a non-empty `choices` without message content is a fail, whatever else the response holds |
| Formatter.CompletionBeforeOthers | src/formatter.py:34-49 | when `choices` is absent or an empty list, `completion` is read before `results` and `content` |
| Formatter.ResultsShadowContent | src/formatter.py:43-49 | a non-empty `results` list whose first dict has no `outputText` gives 'fail', even when `content` holds a text |
| Formatter.EmptyListsFallThrough | src/formatter.py:34-49 | empty `choices` and `results` lists are passed over, and `content` is read |
| Formatter.WindowKeyLastTwoLines | src/formatter.py:57 | the two-line key is the last two lines of the stripped text, joined without a separator |
| Formatter.FallbackOnlyOnBoilerplate | src/formatter.py:57-66 | the four-line window is read exactly when the two-line key is `입니다.`; otherwise the classified two-line key is the verdict |
| Formatter.NoLatinTokens | src/formatter.py:16-19 | a key without capitals, `p` or `f` holds neither Latin token |
| Formatter.KoreanKeyPasses | src/formatter.py:15-28 | the key `정답입니다통과` passes through the Korean token |
| Formatter.ExampleKoreanPass | src/formatter.py:48-66 | an answer ending with the lines `정답입니다` and `통과` is a pass |
| Formatter.EnglishKeyFails | src/formatter.py:15-19 | the key `the answer is wrong.fail` fails |
| Formatter.ExampleFail | src/formatter.py:48-60 | an answer ending with the lines `the answer is wrong.` and `fail` is a fail |
| Formatter.FourLineKeyPasses | src/formatter.py:24-25 | the four-line key `통과근거입니다.` passes |
| Formatter.ExampleBoilerplateFallback | src/formatter.py:57-65 | for `통과\n근거\n\n입니다.` the two-line key is the sign-off, and the four-line fallback makes it a pass |
| Formatter.EnsureAcceptableArguments | src/formatter.py:78-83 | the same keys; a dict under `acceptable_arguments` becomes its JSON text; everything else is kept |
| Formatter.EnsureAcceptableArgumentsIdempotent | src/formatter.py:78-83 | running the validator twice is running it once |
| Formatter.SecondPiece | src/formatter.py:89 | `split('arguments')[1]` raises IndexError exactly when the pattern is absent; otherwise the text after the first occurrence, up to the next occurrence or the end, with no occurrence starting inside it |
| Formatter.RepairArgumentsSuffix | src/formatter.py:91-98 | the repaired arguments text always ends with `"}` and either extends the original or only rewrites its last four characters |
| Formatter.RepairKeepsEscaped | src/formatter.py:95-96 | arguments already ending with the escaped quote are left alone |
| Formatter.ReplaceIdentity | src/formatter.py:99 | replacing a text by itself changes nothing |
| Formatter.CleanGroundTruth | src/formatter.py:85-106 | `clean_ground_truth`, defined by its body; `GroundTruthNeedsArguments`, `GroundTruthDictKept`, `WellFormedGroundTruthParsedAsIs`, `SecondPiece` and `RepairArgumentsSuffix` state its properties |
| Formatter.GroundTruthNeedsArguments | src/formatter.py:86-89 | a string ground truth without `arguments`, and a missing one, raise IndexError |
| Formatter.GroundTruthDictKept | src/formatter.py:86-106 | a ground truth that is not a string is kept |
| Formatter.WellFormedGroundTruthParsedAsIs | src/formatter.py:86-106 | an already-escaped ground truth is parsed exactly as written |
| Formatter.Columns | src/formatter.py:150-156 | one report key per column: the column's own name, with `input_messages` read as `messages` |
| Formatter.ReportHasColumnKeys | src/formatter.py:165-341 | each class's report dict has exactly the keys its columns read |
| Formatter.SetReportParams | src/formatter.py:165-341 | the three `set_report_params`, defined by their bodies; `ReportHasColumnKeys` and `ReportArgumentsCoverKeys` state which keys a report holds, and `RowTotal`/`RowMatchesTitle` what `to_tsv` makes of it |
| Formatter.ReportArgumentsCoverKeys | src/formatter.py:165-341 | a report built by `set_report_params` fills every column, and every key it stores is read by a column |
| Formatter.RowLength | src/formatter.py:150-156 | a row has one field per key read |
| Formatter.RowFields | src/formatter.py:150-156 | field `k` is the `str()` of the report's value under column `k`'s key, with `input_messages` read as `messages` |
| Formatter.RowTotal | src/formatter.py:150-156 | with a value for every column, `to_tsv` raises nothing |
| Formatter.RowKeepsFailure | src/formatter.py:152-155 | the first column without a value decides the error of the whole row |
| Formatter.RowMatchesTitle | src/formatter.py:150-162 | the row of a built report has one field per header column |
| Formatter.SplitTabTerminated | src/formatter.py:150-162 | tab-terminated fields without tabs split back into the fields and a final piece |
| Formatter.TitleColumns | src/formatter.py:158-162 | the header after `#` splits on tabs into the class's keys |
| Formatter.ToTsv | src/formatter.py:150-156 | each column's value followed by a tab, in key order; raises exactly when a column has no value |
| Formatter.GetTsvTitle | src/formatter.py:158-162 | `#` then each key followed by a tab |
| BedrockConversion.BedrockMessages | src/bedrock_utils.py:37-116 | `convert_openai_to_bedrock_messages`, defined by its body; `ConvertMessagesInOrder`, `SystemFoldedIntoFirstTurn`, `SystemOnlyInFirstUserTurn`, `ToolMessageBecomesToolResult` and `ConvertMessagesStopsAtFailure` state its properties |
| BedrockConversion.ConvertOpenAIToBedrockMessages | src/bedrock_utils.py:37-116 | the result, or the exception, is that of `BedrockMessages` |
| BedrockConversion.ConvertOne | src/bedrock_utils.py:57-114 | the body of the second loop, written as the source's role branches and proved equal to `ConvertMessage` |
| BedrockConversion.CollectToolUses | src/bedrock_utils.py:80-89 | the tool-use blocks of an assistant message, as `ToolUses` says |
| BedrockConversion.ToolUse | src/bedrock_utils.py:81-89 | a call that does not raise is a dict and yields a block exactly when its type is `function` |
| BedrockConversion.ConvertMessage | src/bedrock_utils.py:57-114 | a message that does not raise is a dict; it emits a turn exactly when its role is user, assistant or tool, and the turn's role is `user` or `assistant` |
| BedrockConversion.SystemContentIsFirstSystem | src/bedrock_utils.py:51-54 | in both directions: whenever there is a system message, the system content is the first one's content; a system content other than None comes from that message; with no system message it is None |
| BedrockConversion.ConvertMessagesInOrder | src/bedrock_utils.py:56-114 | one turn per emitted message, in order, and only the first is converted as first |
| BedrockConversion.SystemOnlyInFirstUserTurn | src/bedrock_utils.py:63-69 | the system prompt affects only a user message converted first |
| BedrockConversion.SystemFoldedIntoFirstTurn | src/bedrock_utils.py:37-116 | every turn's role is user or assistant; turns after the first ignore the system prompt; a first user turn carries it |
| BedrockConversion.ToolMessageBecomesToolResult | src/bedrock_utils.py:103-114 | a tool message becomes a user turn with one tool result holding its id and parsed content |
| BedrockConversion.ToolUsesKeepFunctionCalls | src/bedrock_utils.py:80-89 | one block per function call, in order, and none for other calls |
| BedrockConversion.AssistantTurnTextFirst | src/bedrock_utils.py:76-97 | an assistant turn with tool calls has its text first, when truthy, then one block per function call |
| BedrockConversion.ConvertMessagesStopsAtFailure | src/bedrock_utils.py:56-114 | the first message that raises ends the conversion with its error |
| BedrockConversion.NormalisedParameters | src/bedrock_utils.py:133-141 | normalising raises exactly when the parameters are not a dict |
| BedrockConversion.ParametersNormalised | src/bedrock_utils.py:136-141 | the schema gets `type` `object` if it has none and `{}` if its properties are falsy; everything else is kept |
| BedrockConversion.NormalisedSchemaReady | src/bedrock_utils.py:136-141 | the normalised schema has a `type` and truthy-or-empty `properties` |
| BedrockConversion.NormalisedTool | src/bedrock_utils.py:131-151 | a tool that does not raise is a dict; it yields a spec exactly when its type is `function`; other tools are untouched |
| BedrockConversion.ToolSchemaReady | src/bedrock_utils.py:135-149 | every emitted `inputSchema.json` is ready for Bedrock |
| BedrockConversion.ToolsPass | src/bedrock_utils.py:130-151 | the pass yields one updated tool per input tool |
| BedrockConversion.ConvertOpenAIToBedrockTools | src/bedrock_utils.py:118-153 | the array holds the tools as the pass leaves them, and the result is the tool config of the specs, or the first exception |
| BedrockConversion.ToolsPassStopsAtFailure | src/bedrock_utils.py:130-151 | a tool that raises stops the pass; tools before it are updated and later ones untouched |
| BedrockConversion.ToolsKeptInOrder | src/bedrock_utils.py:130-151 | one spec per function tool, in order |
| BedrockConversion.SpecsReady | src/bedrock_utils.py:135-149 | every spec's schema has `type` and `properties` |
| BedrockConversion.OtherToolsUntouched | src/bedrock_utils.py:130-131 | tools that are not functions are left exactly as they were |
| BedrockConversion.NormaliseReadySchema | src/bedrock_utils.py:136-141 | a schema already ready is not changed |
| BedrockConversion.NormalisedToolIdempotent | src/bedrock_utils.py:130-151 | normalising an updated tool again gives the same step |
| BedrockConversion.ToolsPassIdempotent | src/bedrock_utils.py:118-153 | converting the tools a second time gives the same tools and the same config |
| BedrockConversion.TextStrings | src/bedrock_utils.py:193-194 | `' '.join` succeeds exactly when every text is a string, and then uses those strings |
| BedrockConversion.OpenAIResponse | src/bedrock_utils.py:155-200 | `convert_bedrock_to_openai_response`, defined by its body; `ResponseShape`, `CallIdFallback`, `ContentIsJoinedTexts` and `ContentSplitsIntoTexts` state its properties |
| BedrockConversion.ConvertBedrockToOpenAIResponse | src/bedrock_utils.py:155-200 | the result, or the exception, is that of `OpenAIResponse` |
| BedrockConversion.CollectItemsStopAtFailure | src/bedrock_utils.py:178-190 | the first item that raises ends the conversion with its error |
| BedrockConversion.CollectItemAdds | src/bedrock_utils.py:178-190 | a text item adds its text, a tool-use item adds one call, and any other item adds nothing |
| BedrockConversion.CollectTextsInOrder | src/bedrock_utils.py:178-180 | the texts collected are the items' texts, in order |
| BedrockConversion.CollectCallsInOrder | src/bedrock_utils.py:181-190 | the j-th call is built from the j-th tool-use item, with `call_<j>` as its fallback id |
| BedrockConversion.ResponseShape | src/bedrock_utils.py:165-200 | the reply has exactly the keys role, content and tool_calls; role is `assistant`; content is None exactly without texts; tool_calls is None exactly without tool uses |
| BedrockConversion.CallIdFallback | src/bedrock_utils.py:182-198 | each call is built from its tool use, and a tool use without `toolUseId` gets the id `call_<j>` |
| BedrockConversion.ContentIsJoinedTexts | src/bedrock_utils.py:192-194 | with at least one text, every text is a string and the content is the texts joined by single spaces |
| BedrockConversion.ContentSplitsIntoTexts | src/bedrock_utils.py:192-194 | texts without spaces are recovered by splitting the content on spaces |
| JsonValues.Get | src/bedrock_utils.py:57-58 | `d.get(key, default)`: the value when present, the default otherwise |
| Strings.SplitJoin | src/bedrock_utils.py:194 | parts without the separator, joined by it, split back into the parts |
| Strings.JoinSplit | src/formatter.py:57 | splitting on a separator and joining with it gives back the text |
| Strings.Strip | src/formatter.py:57 | `strip()` leaves an inner slice with no surrounding whitespace that was cut only from whitespace |
| Strings.Split | src/formatter.py:57 | `split(sep)` gives at least one piece, and no piece contains the separator |
| Strings.FindFirst | src/formatter.py:89 | the first occurrence of a pattern (it occurs there, and at no earlier index), or none exactly when it is absent |
| Strings.RSplitOnce | src/utils.py:134 | `rsplit(sep, 1)`: both parts joined by the separator give the text, and the right part has no separator |

## Left out

- The executor (`APIExecutorFactory`, the model clients) is not part of this model. Its
  `predict` is the parameter `predict: Json -> Outcome`, which returns a response or raises.
- `asyncio`'s event loop and the thread pool behind `predict_async` are modelled only by
  their effect: every request of a batch is sent, then the first exception discards the
  batch.
- The order in which concurrent calls finish, and any concurrency, are left out.
- `tqdm` progress bars and `print` diagnostics are left out, because they do not affect
  results.
- ResponseHandling.ResponseHandler.FetchAndSave: the `debug` flag is accepted and ignored,
  as in the code.
- ResponseHandling.ResponseHandler.LoadCachedResponse: `max_size` only chooses which message
  is printed, so the model ignores it.
- JSON text is abstract. `Codec.dumps`/`dumpsAscii`/`loads`/`repr` are functions, not a
  parser or printer.
- JSON dicts are maps, so key order is not modelled. Neither is `ensure_ascii` beyond
  choosing `dumps` or `dumpsAscii`.
- Python floats and `NaN` are left out.
- Strings.Lower: maps only ASCII capitals. The tokens it is used for (`pass`, `fail`) cannot
  be produced by lower-casing a non-ASCII letter.
- Utils.FileStore.LoadToJsonl: universal-newline translation of `\r` and `\r\n` on reading
  is not modelled. Lines end at `\n` only.
- Utils.FileStore.SaveToJsonl: raising on a non-list is modelled as the result `false` with
  the files unchanged.
- Other file-system failures are left out: permissions, full disks, directories.
- The file system is a map from path to text. Open files, handles and flushing are not
  modelled.
- `load_config_with_env_vars`, `delete_file`, `create_directory`, `load_to_tsv` and
  `load_to_json` are not modelled, because they are outside the core.
- In `bedrock_utils.py`, `create_bedrock_client` and `call_bedrock_model` call boto3 and are
  not part of this model.
- The pydantic machinery around the validators is left out: field coercion, the
  `RequestFormatter` field types, `update`, `to_dict`. The validators themselves are
  modelled on the `values` dict.
- BedrockConversion.ConvertOpenAIToBedrockTools:
  - The tool dicts are modelled as array elements that the pass replaces. In the code they
    are dicts updated in place, and a `parameters` dict may be shared by several tools.
  - Because one pass over its own output changes nothing (`ToolsPassIdempotent`),
    normalising a shared dict twice gives what the model gives.
- BedrockConversion.ContentItems: when `content` is a string or a dict, iterating it is
  modelled by its effect. Characters never hold the keys tested. A dict's keys are strings,
  where `in` is a substring test, and `item['text']` on such a string raises TypeError.
- `json.loads` accepting `bytes` is left out; the model treats every non-string argument
  as raising TypeError.
